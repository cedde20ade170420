/** The verifier's fetcher object: its two dictionaries, changed in place. */
module BoundedFetcherObject {
  import opened Common
  import opened Breaker

  class BoundedFetcher {
    var domains: map<Text, Dom>
    var tempFails: map<Text, int>  // in fifths
    ghost var counted: map<Text, nat>
    ghost var marks: map<Text, seq<MarkDown>>

    /** `setup`, with the stored domains and the marks that led to them. */
    constructor (stored: map<Text, Dom>, ghost marks: map<Text, seq<MarkDown>>)
      requires forall n :: n in stored ==> stored[n].reserved.None?
      ensures domains == stored && tempFails == map[]
      ensures forall n :: n in stored ==> ViewOf(n) == View(stored[n], 0, 0, if n in marks then marks[n] else [])
    {
      domains := stored;
      tempFails := map[];
      counted := map[];
      this.marks := marks;
    }

    /** One domain's part of the object. */
    ghost function ViewOf(n: Text): View
      requires n in domains
      reads this
    {
      View(domains[n], Weight(n), if n in counted then counted[n] else 0, if n in marks then marks[n] else [])
    }

    /** `temp_fails.get(domain, 0)` */
    function Weight(n: Text): int
      reads this
    {
      if n in tempFails then tempFails[n] else 0
    }

    /** Everything about domains other than `n` is as before. */
    twostate predicate OthersSame(n: Text)
      reads this
    {
      && domains.Keys == old(domains.Keys) + {n}
      && forall m :: m in old(domains) && m != n ==> ViewOf(m) == old(ViewOf(m))
    }

    /** The first look-up of a domain in `fetch_ap`. */
    method Know(n: Text, now: real)
      modifies this
      ensures n in domains && OthersSame(n)
      ensures if n in old(domains) then ViewOf(n) == old(ViewOf(n)) else domains[n] == Dom(0, now, None)
    {
      if n !in domains { domains := domains[n := Dom(0, now, None)]; }
    }

    /** `fetch_ap` up to its request: whether it raises instead. The clock is read
        again when the refusal is caught. */
    method Enter(n: Text, now: real, again: real) returns (down: bool)
      requires n in domains
      modifies this
      ensures n in domains && OthersSame(n) && ViewOf(n) == Entered(old(ViewOf(n)), now, again)
      ensures down == (now < old(domains[n]).nextTry)
    {
      down := now < domains[n].nextTry;
      if down { Fail(n, false, again); }
    }

    /** A request that failed, and what is raised for it. */
    method Fail(n: Text, temporary: bool, now: real)
      requires n in domains
      modifies this
      ensures n in domains && OthersSame(n) && ViewOf(n) == Failed(old(ViewOf(n)), temporary, now)
    {
      hide Timer;
      if now < domains[n].nextTry { return; }
      Weigh(n, if temporary then FULL else LIGHT);
      if Weight(n) >= THRESHOLD { SetDown(n, now); }
    }

    method Weigh(n: Text, w: int)
      requires n in domains
      modifies this
      ensures n in domains && OthersSame(n) && Weight(n) == ViewOf(n).weight
      ensures var v := old(ViewOf(n)); ViewOf(n) == v.(weight := v.weight + w, counted := v.counted + 1)
    {
      tempFails := tempFails[n := Weight(n) + w];
      counted := counted[n := (if n in counted then counted[n] else 0) + 1];
    }

    method SetDown(n: Text, now: real)
      requires n in domains
      modifies this
      ensures n in domains && domains.Keys == old(domains.Keys)
      ensures forall m :: m in old(domains) && m != n ==> ViewOf(m) == old(ViewOf(m))
      ensures var v := old(ViewOf(n));
              ViewOf(n) == View(v.dom.(nextTry := if v.dom.fails < TIMERS then now + Timer(v.dom.fails) else INF_TIME,
                  fails := v.dom.fails + 1),
                                0, 0, v.marks + [MarkDown(now, v.counted, v.dom.fails + 1)])
    {
      hide Timer;
      var d := domains[n];
      var next := if d.fails < TIMERS then now + Timer(d.fails) else INF_TIME;
      marks := marks[n := (if n in marks then marks[n] else []) + [MarkDown(now,
          if n in counted then counted[n] else 0, d.fails + 1)]];
      counted := counted[n := 0];
      domains := domains[n := d.(nextTry := next, fails := d.fails + 1)];
      tempFails := tempFails[n := 0];
    }

    /** A request that succeeded. */
    method Succeed(n: Text)
      requires n in domains
      modifies this
      ensures n in domains && OthersSame(n) && ViewOf(n) == Succeeded(old(ViewOf(n)))
    {
      if domains[n].fails > 0 {
        domains := domains[n := domains[n].(fails := 0, nextTry := 0.0)];
        marks := marks[n := []];
      }
    }

    /** `reserve_time`: nothing is reserved for a domain not met before. */
    method ReserveTime(n: Text, now: real, timeout: real) returns (r: real)
      modifies this
      ensures n !in old(domains) ==> r == now && domains == old(domains) && tempFails == old(tempFails)
      ensures n in old(domains) ==>
                n in domains && OthersSame(n) && ViewOf(n) == Reserve(old(ViewOf(n)), now, timeout)
                    && domains[n].reserved == Some(r)
    {
      if n !in domains { return now; }
      var d := domains[n];
      r := now + timeout;
      if d.nextTry > r { r := d.nextTry; }
      var last := if d.reserved.Some? then d.reserved.value else 0.0;
      if last + timeout > r { r := last + timeout; }
      domains := domains[n := d.(reserved := Some(r))];
    }
  }
}
