/** The rolling trade log as values: the threshold gate, head insertion with
    `slice(0, 50)` of the previous log, and the effect of a sequence of
    trades handled one after another. */
module TradeLog {
  import opened Records
  import opened Threshold

  /** How many previous entries survive an insertion (`prev.slice(0, 50)`). */
  const Kept: nat := 50

  /** The longest the log can be: the new entry plus the kept ones. */
  const MaxLog: nat := Kept + 1

  /** The first `n` elements of `s`, or all of it when it is shorter
      (`s.slice(0, n)`). */
  function Take<T>(n: nat, s: seq<T>): (r: seq<T>)
    ensures |r| == if |s| <= n then |s| else n
    ensures forall i :: 0 <= i < |r| ==> r[i] == s[i]
    ensures forall x :: x in r ==> x in s
  {
    if |s| <= n then s else s[..n]
  }

  /** A trade passes the gate when its value is not below the cutoff of the
      selected pair; a value equal to the cutoff passes. */
  predicate Admits(pair: string, t: Trade)
    ensures Admits(pair, t) <==> GetThreshold(pair) <= t.usd
    ensures t.usd == GetThreshold(pair) ==> Admits(pair, t)
  {
    !(t.usd < GetThreshold(pair))
  }

  /** Head insertion: the new entry first, then at most `Kept` of the
      previous entries in their order. */
  function Prepend(log: seq<Entry>, e: Entry): (r: seq<Entry>)
    ensures |r| <= MaxLog
    ensures |r| == 1 + (if |log| <= Kept then |log| else Kept)
    ensures r[0] == e
    ensures forall i :: 1 <= i < |r| ==> r[i] == log[i - 1]
  {
    [e] + Take(Kept, log)
  }

  /** One `processTrade` call: a trade below the cutoff leaves the log as it
      was, any other is inserted at the head stamped with `now`. */
  function Step(pair: string, log: seq<Entry>, t: Trade, now: int): (r: seq<Entry>)
    ensures t.usd < GetThreshold(pair) ==> r == log
    ensures GetThreshold(pair) <= t.usd ==> r == Prepend(log, Entry(now, t))
    ensures |log| <= MaxLog ==> |r| <= MaxLog
  {
    if Admits(pair, t) then Prepend(log, Entry(now, t)) else log
  }

  /** The log after handling `ts` in order, starting from `log`: however
      many trades are handled it stays within `MaxLog` entries, and a batch
      none of whose trades passes the gate leaves it as it was. */
  function StepAll(pair: string, log: seq<Entry>, ts: seq<Trade>, now: int): (r: seq<Entry>)
    ensures |log| <= MaxLog ==> |r| <= MaxLog
    ensures (forall i :: 0 <= i < |ts| ==> !Admits(pair, ts[i])) ==> r == log
    decreases |ts|
  {
    if ts == [] then log else StepAll(pair, Step(pair, log, ts[0], now), ts[1..], now)
  }

  /** The admitted trades of `ts` as entries, the last admitted one first. */
  function NewestFirst(pair: string, ts: seq<Trade>, now: int): (r: seq<Entry>)
    ensures |r| <= |ts|
    ensures (forall i :: 0 <= i < |ts| ==> Admits(pair, ts[i])) ==>
              |r| == |ts| && forall i :: 0 <= i < |ts| ==> r[i] == Entry(now, ts[|ts| - 1 - i])
    ensures forall e :: e in r ==> e.id == now && e.trade in ts && Admits(pair, e.trade)
    ensures forall i :: 0 <= i < |ts| && Admits(pair, ts[i]) ==> Entry(now, ts[i]) in r
    decreases |ts|
  {
    if ts == [] then []
    else NewestFirst(pair, ts[1..], now) + (if Admits(pair, ts[0]) then [Entry(now, ts[0])] else [])
  }

  /** Cutting at `n` before or after putting `a` in front makes no
      difference once the whole is cut at `n` again. */
  lemma TakeOfTake<T>(n: nat, a: seq<T>, b: seq<T>)
    ensures Take(n, a + Take(n, b)) == Take(n, a + b)
  {
  }

  /** Head insertion is the newest entry in front of the whole previous log,
      cut to `MaxLog` entries. */
  lemma PrependIsTake(log: seq<Entry>, e: Entry)
    ensures Prepend(log, e) == Take(MaxLog, [e] + log)
  {
  }

  /** Closed form of a run of `processTrade` calls: the trades that pass the
      gate, newest first, in front of the old log, cut to `MaxLog`. */
  lemma {:induction false} StepAllIsTake(pair: string, log: seq<Entry>, ts: seq<Trade>, now: int)
    requires |log| <= MaxLog
    ensures StepAll(pair, log, ts, now) == Take(MaxLog, NewestFirst(pair, ts, now) + log)
    decreases |ts|
  {
    if ts == [] {
      assert NewestFirst(pair, ts, now) + log == log;
    } else {
      var t, rest := ts[0], ts[1..];
      var log' := Step(pair, log, t, now);
      StepAllIsTake(pair, log', rest, now);
      var newer := NewestFirst(pair, rest, now);
      if Admits(pair, t) {
        var e := Entry(now, t);
        PrependIsTake(log, e);
        TakeOfTake(MaxLog, newer, [e] + log);
        assert newer + ([e] + log) == (newer + [e]) + log;
      } else {
        assert newer + [] == newer;
      }
    }
  }

  /** Nothing but the old entries and the batch's admitted trades, stamped
      with `now`, can be in the log after a batch. */
  lemma LogAfterBatchOnly(pair: string, log: seq<Entry>, ts: seq<Trade>, now: int)
    requires |log| <= MaxLog
    ensures forall e :: e in StepAll(pair, log, ts, now) ==>
              e in log || (e.id == now && e.trade in ts && Admits(pair, e.trade))
  {
    StepAllIsTake(pair, log, ts, now);
    var newer := NewestFirst(pair, ts, now);
    assert forall e :: e in newer + log ==> e in newer || e in log;
  }

  /** When a batch admits at most `MaxLog` trades, every one of them is in
      the log afterwards. */
  lemma LogAfterBatchAll(pair: string, log: seq<Entry>, ts: seq<Trade>, now: int)
    requires |log| <= MaxLog
    requires |NewestFirst(pair, ts, now)| <= MaxLog
    ensures forall i :: 0 <= i < |ts| && Admits(pair, ts[i]) ==>
              Entry(now, ts[i]) in StepAll(pair, log, ts, now)
  {
    StepAllIsTake(pair, log, ts, now);
    var newer := NewestFirst(pair, ts, now);
    var r := StepAll(pair, log, ts, now);
    forall i | 0 <= i < |ts| && Admits(pair, ts[i])
      ensures Entry(now, ts[i]) in r
    {
      var k :| 0 <= k < |newer| && newer[k] == Entry(now, ts[i]);
      assert r[k] == newer[k];
    }
  }

  /** Gate boundary for the default pair: 15000 passes, just below does not. */
  lemma GateBoundary(log: seq<Entry>, now: int)
    ensures var t := Trade(BinanceTag, Buy, 1.0, 15000.0, 15000.0, 0);
            Step("BTCUSDT", log, t, now) == Prepend(log, Entry(now, t))
    ensures Step("BTCUSDT", log, Trade(BinanceTag, Buy, 1.0, 14999.5, 14999.5, 0), now) == log
  {
  }
}
