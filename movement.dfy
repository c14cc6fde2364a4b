/** The avatar's arrow-key step, clamped to the walkable part of the map. */
module Movement {
  import opened Types

  /** The distance one arrow key press moves the avatar. */
  const Step: real := 2.5

  function Max(a: real, b: real): real { if a >= b then a else b }
  function Min(a: real, b: real): real { if a <= b then a else b }

  /** `Math.max(5, Math.min(95, v))` */
  function Clamp(v: real): (r: real)
    ensures 5.0 <= r <= 95.0
    ensures 5.0 <= v <= 95.0 ==> r == v
    ensures v < 5.0 ==> r == 5.0
    ensures v > 95.0 ==> r == 95.0
  {
    Max(5.0, Min(95.0, v))
  }

  /** The inner square [5, 95] x [5, 95] that the arrow keys keep the avatar in. */
  predicate InBounds(p: Position) {
    5.0 <= p.x <= 95.0 && 5.0 <= p.y <= 95.0
  }

  predicate IsArrow(key: string) {
    key == "ArrowUp" || key == "ArrowDown" || key == "ArrowLeft" || key == "ArrowRight"
  }

  /**
   * The position after one key press: an arrow moves one axis by the step
   * and then both coordinates are clamped; any other key leaves the avatar
   * where it was, without clamping. A start outside the bounds (a map
   * click can put the avatar there) is clamped on both axes by any arrow.
   */
  function StepAvatar(p: Position, key: string): (r: Position)
    ensures !IsArrow(key) ==> r == p
    ensures IsArrow(key) ==> InBounds(r)
    ensures (key == "ArrowUp" || key == "ArrowDown") && InBounds(p) ==> r.x == p.x
    ensures (key == "ArrowLeft" || key == "ArrowRight") && InBounds(p) ==> r.y == p.y
    ensures key == "ArrowUp" ==> r == Position(Clamp(p.x), Clamp(p.y - Step))
    ensures key == "ArrowDown" ==> r == Position(Clamp(p.x), Clamp(p.y + Step))
    ensures key == "ArrowLeft" ==> r == Position(Clamp(p.x - Step), Clamp(p.y))
    ensures key == "ArrowRight" ==> r == Position(Clamp(p.x + Step), Clamp(p.y))
  {
    var dx := if key == "ArrowLeft" then -Step else if key == "ArrowRight" then Step else 0.0;
    var dy := if key == "ArrowUp" then -Step else if key == "ArrowDown" then Step else 0.0;
    if IsArrow(key) then Position(Clamp(p.x + dx), Clamp(p.y + dy)) else p
  }

  /**
   * From inside the bounds an arrow moves its axis by exactly one step
   * unless that would cross the edge, in which case it stops at the edge.
   */
  lemma ArrowMovesOneStep(p: Position, key: string)
    requires InBounds(p) && IsArrow(key)
    ensures var r := StepAvatar(p, key);
      && (key == "ArrowUp" ==> r.y == (if p.y - Step < 5.0 then 5.0 else p.y - Step))
      && (key == "ArrowDown" ==> r.y == (if p.y + Step > 95.0 then 95.0 else p.y + Step))
      && (key == "ArrowLeft" ==> r.x == (if p.x - Step < 5.0 then 5.0 else p.x - Step))
      && (key == "ArrowRight" ==> r.x == (if p.x + Step > 95.0 then 95.0 else p.x + Step))
  {
  }

  /** Up then down from a point at least one step away from the top edge returns to it. */
  lemma UpThenDown(p: Position)
    requires InBounds(p) && p.y >= 5.0 + Step
    ensures StepAvatar(StepAvatar(p, "ArrowUp"), "ArrowDown") == p
  {
  }
}
