/**
 * The change detection every publishing client runs once per polling cycle:
 * remember the last title, announce a title only when it differs from it, and
 * forget it when nothing is detected. One cycle is `Step`; a sequence of
 * cycles is `Run`; `Announced` says which titles a run announces in terms of
 * the detected titles alone.
 */
module Dedup {
  import opened Wrappers

  /** One cycle: `t` is the title detected (None when nothing is). The new last title and the
      title announced, if any. */
  function Step(last: Option<string>, t: Option<string>): (r: (Option<string>, Option<string>))
    ensures r.0 == t
    ensures r.1.Some? <==> t.Some? && t != last
    ensures r.1.Some? ==> r.1 == t
  {
    match t
    case None => (None, None)
    case Some(x) => if t != last then (t, t) else (last, None)
  }

  /** The cycles over `ts` in order, from `last`: the final last title and the titles announced. */
  function Run(last: Option<string>, ts: seq<Option<string>>): (r: (Option<string>, seq<string>))
    decreases |ts|
  {
    if |ts| == 0 then (last, [])
    else
      var (l, out) := Run(last, ts[..|ts| - 1]);
      var (l', a) := Step(l, ts[|ts| - 1]);
      (l', if a.Some? then out + [a.value] else out)
  }

  /** Cycle `i` announces: something was detected, and it is not what the previous cycle
      detected (the first cycle always counts as a change). */
  predicate AnnouncedAt(ts: seq<Option<string>>, i: nat)
    requires i < |ts|
  {
    ts[i].Some? && (i == 0 || ts[i - 1] != ts[i])
  }

  /** The titles of the cycles that announce, in order. */
  function Announced(ts: seq<Option<string>>): (r: seq<string>)
    decreases |ts|
  {
    if |ts| == 0 then []
    else
      var k := |ts| - 1;
      Announced(ts[..k]) + (if AnnouncedAt(ts, k) then [ts[k].value] else [])
  }

  /** A run from a fresh start announces exactly `Announced`, and its last title is the one
      the final cycle detected. */
  lemma {:induction false} RunAnnounces(ts: seq<Option<string>>)
    ensures Run(None, ts).1 == Announced(ts)
    ensures Run(None, ts).0 == if |ts| == 0 then None else ts[|ts| - 1]
    decreases |ts|
  {
    if |ts| > 0 {
      var k := |ts| - 1;
      RunAnnounces(ts[..k]);
      assert ts[..k][..k] == ts[..k];
      if k > 0 {
        assert ts[..k][k - 1] == ts[k - 1];
      }
    }
  }

  /** When every cycle detects something, the announced titles never repeat back to back. */
  lemma {:induction false} AnnouncedNoRepeats(ts: seq<Option<string>>)
    requires forall i :: 0 <= i < |ts| ==> ts[i].Some?
    ensures var a := Announced(ts);
      forall i :: 0 <= i < |a| - 1 ==> a[i] != a[i + 1]
    ensures |ts| > 0 ==> |Announced(ts)| > 0 && Announced(ts)[|Announced(ts)| - 1] == ts[|ts| - 1].value
    decreases |ts|
  {
    if |ts| > 0 {
      var k := |ts| - 1;
      var init := ts[..k];
      AnnouncedNoRepeats(init);
      if k > 0 {
        assert init[k - 1] == ts[k - 1];
      }
    }
  }
}
