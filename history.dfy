/** The four rolling histories behind the monitor's charts: temperature,
    fan RPM, battery power and sample time, each a `deque(maxlen=60)`.
    They are filled with 60 seed samples when the window is built and get
    one new sample per refresh, the oldest one falling off. */
module History {

  /** `maxlen` of every history deque: one minute of one-second samples. */
  const HistoryLength: nat := 60

  /** The last `n` elements of `s`, in order (all of `s` when shorter). */
  function LastN<T>(s: seq<T>, n: nat): (r: seq<T>)
    ensures |r| == if |s| <= n then |s| else n
    ensures forall k :: 0 <= k < |r| ==> r[k] == s[|s| - |r| + k]
  {
    if |s| <= n then s else s[|s| - n..]
  }

  /** Cutting back to `n` after every append keeps exactly the last `n`
      values ever appended. */
  lemma LastNAppend<T>(s: seq<T>, x: T, n: nat)
    ensures LastN(LastN(s, n) + [x], n) == LastN(s + [x], n)
  {
    var w := LastN(s, n);
    var lhs, rhs := LastN(w + [x], n), LastN(s + [x], n);
    assert |lhs| == |rhs|;
    forall k | 0 <= k < |lhs| ensures lhs[k] == rhs[k] {
      if k < |lhs| - 1 {
        assert lhs[k] == (w + [x])[|w| + 1 - |lhs| + k] == w[|w| + 1 - |lhs| + k];
      }
    }
  }

  /** A full window drops its oldest element on an append and keeps the
      others in order, with the new value last. */
  lemma FullWindowShifts<T>(w: seq<T>, x: T, n: nat)
    requires |w| == n
    ensures LastN(w + [x], n) == (w + [x])[1..]
  {
  }

  /** A window seeded with `n` values and then given `samples`: once `n`
      samples have arrived it holds the last `n` of them; before that, the
      seeds not yet pushed out followed by all the samples. */
  lemma SeededWindow<T>(seed: seq<T>, samples: seq<T>, n: nat)
    requires |seed| == n
    ensures |samples| >= n ==> LastN(seed + samples, n) == samples[|samples| - n..]
    ensures |samples| < n ==> LastN(seed + samples, n) == seed[|samples|..] + samples
  {
    var s := seed + samples;
    if |samples| >= n {
      assert s[|s| - n..] == samples[|samples| - n..];
    } else {
      assert s[|s| - n..] == seed[|samples|..] + samples;
    }
  }

  /** A `deque(maxlen=...)` that is only ever appended to. `appended` is
      every value appended since creation; the deque holds the last
      `maxlen` of them. */
  class Window<T> {
    const maxlen: nat
    var items: seq<T>
    ghost var appended: seq<T>

    ghost predicate Valid()
      reads this
    {
      items == LastN(appended, maxlen)
    }

    /** `deque(maxlen=maxlen)`: empty. */
    constructor (maxlen: nat)
      ensures Valid() && this.maxlen == maxlen
      ensures items == [] && appended == []
    {
      this.maxlen := maxlen;
      items := [];
      appended := [];
    }

    /** `append(x)`: `x` goes to the right end; when the deque was full the
        leftmost element is discarded. */
    method Append(x: T)
      requires Valid()
      modifies this
      ensures Valid()
      ensures appended == old(appended) + [x]
      ensures items == LastN(old(items) + [x], maxlen)
      ensures |old(items)| < maxlen ==> items == old(items) + [x]
      ensures |old(items)| == maxlen ==> items == (old(items) + [x])[1..]
    {
      items := items + [x];
      if |items| > maxlen {
        items := items[1..];
      }
      LastNAppend(appended, x, maxlen);
      appended := appended + [x];
    }
  }

  /** The monitor's four histories. */
  class MonitorHistory {
    const temps: Window<int>
    const rpms: Window<int>
    const powers: Window<real>
    const times: Window<real>

    ghost predicate Valid()
      reads this, temps, rpms, powers, times
    {
      && temps != rpms && powers != times
      && temps.Valid() && rpms.Valid() && powers.Valid() && times.Valid()
      && temps.maxlen == HistoryLength && rpms.maxlen == HistoryLength
      && powers.maxlen == HistoryLength && times.maxlen == HistoryLength
    }

    /** The seeding loop of `__init__`: sixty zero samples for temperature,
        RPM and power, stamped one second apart and ending one second
        before `now`, the time the window is built. */
    constructor (now: real)
      ensures Valid()
      ensures fresh(temps) && fresh(rpms) && fresh(powers) && fresh(times)
      ensures |temps.items| == |rpms.items| == |powers.items| == |times.items| == HistoryLength
      ensures forall k :: 0 <= k < HistoryLength ==> temps.items[k] == 0 && rpms.items[k] == 0
      ensures forall k :: 0 <= k < HistoryLength ==> powers.items[k] == 0.0
      ensures forall k :: 0 <= k < HistoryLength ==> times.items[k] == now - (HistoryLength - k) as real
    {
      temps := new Window(HistoryLength);
      rpms := new Window(HistoryLength);
      powers := new Window(HistoryLength);
      times := new Window(HistoryLength);
      new;
      for i := 0 to HistoryLength
        invariant Valid()
        invariant |temps.items| == |rpms.items| == |powers.items| == |times.items| == i
        invariant forall k :: 0 <= k < i ==> temps.items[k] == 0 && rpms.items[k] == 0
        invariant forall k :: 0 <= k < i ==> powers.items[k] == 0.0
        invariant forall k :: 0 <= k < i ==> times.items[k] == now - (HistoryLength - k) as real
      {
        Record(0, 0, 0.0, now - (HistoryLength - i) as real);
      }
    }

    /** The history part of `update_data`: one sample per history. */
    method Record(temp: int, rpm: int, power: real, now: real)
      requires Valid()
      modifies temps, rpms, powers, times
      ensures Valid()
      ensures temps.appended == old(temps.appended) + [temp]
      ensures rpms.appended == old(rpms.appended) + [rpm]
      ensures powers.appended == old(powers.appended) + [power]
      ensures times.appended == old(times.appended) + [now]
      ensures temps.items == LastN(old(temps.items) + [temp], HistoryLength)
      ensures rpms.items == LastN(old(rpms.items) + [rpm], HistoryLength)
      ensures powers.items == LastN(old(powers.items) + [power], HistoryLength)
      ensures times.items == LastN(old(times.items) + [now], HistoryLength)
    {
      temps.Append(temp);
      rpms.Append(rpm);
      powers.Append(power);
      times.Append(now);
    }
  }
}
