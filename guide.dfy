/**
 * The mascot's speech bubble: a pager over the current mission's guide
 * lines, reset to the first page whenever a new array of lines arrives.
 */
module Guide {
  import opened Wrappers

  class BloomingGuide {
    var lines: seq<string>
    var page: nat

    /** The page is on a line, or is the first page of an empty array. */
    ghost predicate Valid()
      reads this
    {
      page == 0 || page < |lines|
    }

    constructor(lines: seq<string>)
      ensures Valid() && this.lines == lines && page == 0
    {
      this.lines := lines;
      page := 0;
    }

    /**
     * A re-render with the given lines. The reset effect depends on the
     * array's identity: `newArray` says whether a different array object
     * arrived; the same object necessarily carries the same lines.
     */
    method Rerender(newLines: seq<string>, newArray: bool)
      requires Valid()
      requires !newArray ==> newLines == lines
      modifies this
      ensures Valid() && lines == newLines
      ensures page == if newArray then 0 else old(page)
    {
      lines := newLines;
      if newArray {
        page := 0;
      }
    }

    /** `handleNext`: moves one page on unless the bubble is on the last line. */
    method Next()
      requires Valid()
      modifies this
      ensures Valid() && lines == old(lines)
      ensures page == if old(page) + 1 < |lines| then old(page) + 1 else old(page)
    {
      if page + 1 < |lines| {
        page := page + 1;
      }
    }

    /** The line shown; an empty array shows nothing. */
    function Shown(): (r: Option<string>)
      requires Valid()
      reads this
      ensures r.Some? <==> |lines| > 0
      ensures r.Some? ==> r.value == lines[page]
    {
      if page < |lines| then Some(lines[page]) else None
    }

    /** The "page / total" counter, one-based. */
    function Counter(): (r: (nat, nat))
      requires Valid()
      reads this
      ensures r == (page + 1, |lines|)
      ensures 1 <= r.0
      ensures |lines| > 0 ==> r.0 <= r.1
    {
      (page + 1, |lines|)
    }

    /** The chevron appears exactly while another line remains. */
    function ChevronShown(): (r: bool)
      requires Valid()
      reads this
      ensures r <==> page + 1 < |lines|
      ensures r ==> Shown().Some?
    {
      page + 1 < |lines|
    }
  }

  /**
   * Reading a fresh bubble page by page until the chevron disappears shows
   * every line once, in order, and leaves it on the last line.
   */
  method ReadThrough(lines: seq<string>) returns (read: seq<string>, clicks: nat)
    requires |lines| > 0
    ensures read == lines
    ensures clicks == |lines| - 1
  {
    var g := new BloomingGuide(lines);
    read := [g.Shown().value];
    clicks := 0;
    while g.ChevronShown()
      invariant g.Valid() && g.lines == lines
      invariant g.page == clicks && read == lines[..g.page + 1]
      decreases |lines| - g.page
    {
      g.Next();
      clicks := clicks + 1;
      read := read + [g.Shown().value];
    }
  }
}
