/**
 * The delays between the reconnects of the mirror agent's client (src/mirror-agent/hub-client.ts): they double up to
 * a limit, and fall back when a socket opens.
 */
module ReconnectDelays {

  const RECONNECT_INITIAL_MS := 1_000
  const RECONNECT_MAX_MS := 30_000

  /** What the client did so far, and when: it saw a socket open, or arranged a reconnect after a delay. */
  datatype Event = Opened(at: int) | Waiting(delay: nat, at: int)

  function Min(a: nat, b: nat): nat {
    if a < b then a else b
  }

  function Pow2(k: nat): (p: nat)
    ensures p >= 1
  {
    if k == 0 then 1 else 2 * Pow2(k - 1)
  }

  /** How many reconnects were arranged since a socket last opened. */
  function SinceOpen(past: seq<Event>): nat {
    if past == [] || past[|past| - 1].Opened? then 0 else SinceOpen(past[..|past| - 1]) + 1
  }

  /** The next delay: twice the last one, up to the limit, or the initial one after a socket opened. */
  function NextDelay(past: seq<Event>): nat {
    if past == [] || past[|past| - 1].Opened? then RECONNECT_INITIAL_MS
    else Min(past[|past| - 1].delay * 2, RECONNECT_MAX_MS)
  }

  /** Every delay that was chosen was the next one then. */
  ghost predicate Chained(past: seq<Event>) {
    past == []
    || (&& Chained(past[..|past| - 1])
        && (past[|past| - 1].Waiting? ==> past[|past| - 1].delay == NextDelay(past[..|past| - 1])))
  }

  lemma {:induction false} ChainGrows(past: seq<Event>, e: Event)
    requires Chained(past) && (e.Waiting? ==> e.delay == NextDelay(past))
    ensures Chained(past + [e])
    ensures NextDelay(past + [e]) == if e.Opened? then RECONNECT_INITIAL_MS else Min(e.delay * 2, RECONNECT_MAX_MS)
  {
    assert (past + [e])[..|past|] == past;
  }

  /** So the delays since a socket opened are the powers of two, up to the limit. */
  lemma {:induction false} NextDelayIs(past: seq<Event>)
    requires Chained(past)
    ensures NextDelay(past) == Min(1000 * Pow2(SinceOpen(past)), 30000)
  {
    if past != [] && past[|past| - 1].Waiting? {
      NextDelayIs(past[..|past| - 1]);
    }
  }

  lemma {:induction false} DelayAt(past: seq<Event>, i: nat)
    requires Chained(past) && i < |past| && past[i].Waiting?
    ensures past[i].delay == Min(1000 * Pow2(SinceOpen(past[..i])), 30000)
  {
    var p := past[..|past| - 1];
    if i < |p| {
      DelayAt(p, i);
      assert p[..i] == past[..i];
    } else {
      NextDelayIs(p);
    }
  }
}
