/**
 * The accordion of the Projects window: at most one project's details are
 * expanded, and clicking a project's header expands or collapses it.
 */
module ProjectsWindow {
  import opened Wrappers

  /** Whether project `id` is expanded when the accordion's open id is `openId`. */
  predicate IsOpen(openId: Option<string>, id: string)
  {
    openId == Some(id)
  }

  /**
   * The header click: the expanded project collapses, any other project
   * expands in place of whatever was open.
   */
  function Toggle(prev: Option<string>, id: string): (next: Option<string>)
    ensures IsOpen(next, id) <==> !IsOpen(prev, id)
    ensures forall other :: other != id ==> !IsOpen(next, other)
  {
    if prev == Some(id) then None else Some(id)
  }

  /** Clicking the same header twice from a collapsed or that-project state returns to it. */
  lemma ToggleTwice(prev: Option<string>, id: string)
    requires prev == None || prev == Some(id)
    ensures Toggle(Toggle(prev, id), id) == prev
  {
  }

  /** From a state where another project is open, two clicks on `id` leave everything collapsed. */
  lemma ToggleTwiceFromOther(prev: Option<string>, id: string)
    requires prev.Some? && prev != Some(id)
    ensures Toggle(Toggle(prev, id), id) == None
  {
  }

  /** Clicking a sequence of headers, one after another. */
  function ToggleAll(prev: Option<string>, clicks: seq<string>): Option<string>
    decreases |clicks|
  {
    if clicks == [] then prev else ToggleAll(Toggle(prev, clicks[0]), clicks[1..])
  }

  /**
   * After any non-empty sequence of clicks, either nothing is expanded or the
   * expanded project is the one clicked last.
   */
  lemma {:induction false} ToggleAllOpensLast(prev: Option<string>, clicks: seq<string>)
    requires clicks != []
    ensures ToggleAll(prev, clicks) == None || ToggleAll(prev, clicks) == Some(clicks[|clicks| - 1])
    decreases |clicks|
  {
    if |clicks| > 1 {
      ToggleAllOpensLast(Toggle(prev, clicks[0]), clicks[1..]);
    }
  }
}
