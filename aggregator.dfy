/**
 * The per-day aggregator of time_parser.py: `Time`, `Date` and
 * `AggregatedTimeIntoDays`.
 *
 * The dictionary `_storage` becomes a `map<Date, Time>` together with the
 * sequence of its keys in first-insertion order, which is the order Python's
 * dict iterates in. `Table` is the same state as a value: the functions
 * `WithKey` and `Added` specify the two mutating methods, and `Aggregate`
 * folds `Added` over a sequence of parsed lines.
 */
module Aggregator {
  import opened Wrappers
  import opened LineParser

  datatype Time = Time(hours: nat, minutes: nat)

  /** The key of a day. The source annotates `month` as `int` but stores the month text in it. */
  datatype Date = Date(month: string, day: nat)

  /** The fixed bonus for an entry with a digit before "+". */
  const BonusHours: nat := 24

  function TotalMinutes(t: Time): nat {
    t.hours * 60 + t.minutes
  }

  /** The minutes one parsed line contributes. */
  function EntryMinutes(p: ParsedDatetime): nat {
    p.hours * 60 + p.minutes + (if p.extraNumber.Some? then BonusHours * 60 else 0)
  }

  /** `_get_key`: lines with the same month text and day number share a key. */
  function GetKey(p: ParsedDatetime): Date {
    Date(p.month, p.day)
  }

  /**
   * Keys are equal exactly when month and day are, as for the frozen `Date`
   * dataclass. That equal keys share one table slot, and distinct keys do not,
   * is carried by `Consistent` (distinct `order`) and `AggregateTotals`.
   */
  lemma GetKeyIdentity(p: ParsedDatetime, q: ParsedDatetime)
    ensures GetKey(p) == GetKey(q) <==> p.month == q.month && p.day == q.day
  {
  }

  /**
   * `_sum_new_and_previous_time`: adds the new hours and minutes, plus 24
   * hours when an extra digit is present, and carries whole hours out of
   * the minutes.
   */
  function SumNewAndPreviousTime(previous: Time, extraThing: Option<nat>, newHours: nat, newMinutes: nat): (r: Time)
    ensures r.minutes < 60
    // TotalMinutes(r) == TotalMinutes(previous) + the entry's minutes, written out
    // so that the solver does not loop on TotalMinutes with a literal argument.
    ensures r.hours * 60 + r.minutes ==
      previous.hours * 60 + previous.minutes + newHours * 60 + newMinutes
      + (if extraThing.Some? then BonusHours * 60 else 0)
  {
    var bonusTime := if extraThing.Some? then BonusHours else 0;
    var summedHours := previous.hours + newHours + bonusTime;
    var summedMinutes := previous.minutes + newMinutes;
    Time(summedHours + summedMinutes / 60, summedMinutes % 60)
  }

  /** The bonus is 24 hours whatever the digit is; it never scales with the digit. */
  lemma BonusIsFlat(previous: Time, a: nat, b: nat, newHours: nat, newMinutes: nat)
    ensures SumNewAndPreviousTime(previous, Some(a), newHours, newMinutes)
         == SumNewAndPreviousTime(previous, Some(b), newHours, newMinutes)
         == SumNewAndPreviousTime(previous, None, newHours + 24, newMinutes)
  {
  }

  /** A time with minutes below 60 is fixed by its total minutes. */
  lemma {:induction false} NormalFormUnique(t: Time, u: Time)
    requires t.minutes < 60 && u.minutes < 60
    requires TotalMinutes(t) == TotalMinutes(u)
    ensures t == u
  {
  }

  // ----- the table as a value -----

  datatype Table = Table(storage: map<Date, Time>, order: seq<Date>)

  const Empty := Table(map[], [])

  /** The order lists each stored key once, and every stored time has minutes below 60. */
  ghost predicate Consistent(t: Table) {
    && (forall i, j :: 0 <= i < j < |t.order| ==> t.order[i] != t.order[j])
    && (forall d :: d in t.storage <==> d in t.order)
    && (forall d :: d in t.storage ==> t.storage[d].minutes < 60)
  }

  /** `_init_in_storage_if_not_exists`: a new key starts at zero and goes last. */
  function WithKey(t: Table, key: Date): (r: Table)
    ensures key in r.storage
    ensures key in t.storage ==> r == t
    ensures key !in t.storage ==> r.storage[key] == Time(0, 0)
    ensures forall d :: d != key ==> (d in r.storage <==> d in t.storage)
    ensures forall d :: d != key && d in t.storage ==> r.storage[d] == t.storage[d]
    ensures |r.order| == |t.order| + (if key in t.storage then 0 else 1)
    ensures r.order[..|t.order|] == t.order
    ensures key !in t.storage ==> r.order == t.order + [key]
  {
    if key in t.storage then t else Table(t.storage[key := Time(0, 0)], t.order + [key])
  }

  lemma WithKeyConsistent(t: Table, key: Date)
    requires Consistent(t)
    ensures Consistent(WithKey(t, key))
  {
    var r := WithKey(t, key);
    if key !in t.storage {
      forall i, j | 0 <= i < j < |r.order| ensures r.order[i] != r.order[j] {
        if j == |t.order| {
          assert r.order[i] == t.order[i];
        }
      }
    }
  }

  /** `add`: the entry's time is summed into its day's slot. */
  function Added(t: Table, p: ParsedDatetime): (r: Table)
    ensures GetKey(p) in r.storage
    ensures TotalMinutes(r.storage[GetKey(p)]) ==
      (if GetKey(p) in t.storage then TotalMinutes(t.storage[GetKey(p)]) else 0) + EntryMinutes(p)
    ensures r.storage[GetKey(p)].minutes < 60
    ensures forall d :: d != GetKey(p) ==> (d in r.storage <==> d in t.storage)
    ensures forall d :: d != GetKey(p) && d in t.storage ==> r.storage[d] == t.storage[d]
    ensures |r.order| == |t.order| + (if GetKey(p) in t.storage then 0 else 1)
    ensures r.order[..|t.order|] == t.order
  {
    var key := GetKey(p);
    var t1 := WithKey(t, key);
    Table(t1.storage[key := SumNewAndPreviousTime(t1.storage[key], p.extraNumber, p.hours, p.minutes)], t1.order)
  }

  lemma AddedConsistent(t: Table, p: ParsedDatetime)
    requires Consistent(t)
    ensures Consistent(Added(t, p))
  {
    var r := Added(t, p);
    var key := GetKey(p);
    if key !in t.storage {
      assert r.order == t.order + [key];
      forall i, j | 0 <= i < j < |r.order| ensures r.order[i] != r.order[j] {
        if j == |t.order| {
          assert r.order[i] == t.order[i];
        }
      }
    } else {
      assert r.order == t.order;
    }
  }

  /** `add` appends the day to the order exactly when the day is new. */
  lemma AddedOrder(t: Table, p: ParsedDatetime)
    requires Consistent(t)
    ensures GetKey(p) in t.order <==> GetKey(p) in t.storage
    ensures Added(t, p).order == if GetKey(p) in t.order then t.order else t.order + [GetKey(p)]
  {
    var r := Added(t, p);
    if GetKey(p) in t.storage {
      assert r.order == r.order[..|t.order|];
    } else {
      assert r.order == t.order + [GetKey(p)];
    }
  }

  /** The table after the parsed lines `ps` were added one by one to an empty one. */
  function Aggregate(ps: seq<ParsedDatetime>): (r: Table)
    ensures Consistent(r)
  {
    if ps == [] then Empty
    else
      AddedConsistent(Aggregate(ps[..|ps| - 1]), ps[|ps| - 1]);
      Added(Aggregate(ps[..|ps| - 1]), ps[|ps| - 1])
  }

  lemma AggregateStep(ps: seq<ParsedDatetime>, p: ParsedDatetime)
    ensures Aggregate(ps + [p]) == Added(Aggregate(ps), p)
  {
    assert (ps + [p])[..|ps|] == ps;
  }

  // ----- what the fold adds up to -----

  /** The keys of the parsed lines, in input order. */
  function Keys(ps: seq<ParsedDatetime>): (ks: seq<Date>)
    ensures |ks| == |ps|
    ensures forall i :: 0 <= i < |ps| ==> ks[i] == GetKey(ps[i])
  {
    if ps == [] then [] else Keys(ps[..|ps| - 1]) + [GetKey(ps[|ps| - 1])]
  }

  /** The minutes of all parsed lines with key `d`. */
  function DayMinutes(ps: seq<ParsedDatetime>, d: Date): nat {
    if ps == [] then 0
    else DayMinutes(ps[..|ps| - 1], d) + (if GetKey(ps[|ps| - 1]) == d then EntryMinutes(ps[|ps| - 1]) else 0)
  }

  /** The time a total of `m` minutes is written as. */
  function FromMinutes(m: nat): (t: Time)
    ensures t.minutes < 60 && TotalMinutes(t) == m
  {
    Time(m / 60, m % 60)
  }

  /**
   * After a run, a day is stored exactly when some line had its key, and its
   * time is the sum of those lines' durations (24 hours added per extra digit),
   * minutes carried into hours.
   */
  lemma {:induction false} AggregateTotals(ps: seq<ParsedDatetime>, d: Date)
    ensures d in Aggregate(ps).storage <==> d in Keys(ps)
    ensures d in Aggregate(ps).storage ==> Aggregate(ps).storage[d] == FromMinutes(DayMinutes(ps, d))
    ensures d !in Aggregate(ps).storage ==> DayMinutes(ps, d) == 0
  {
    if ps != [] {
      var init := ps[..|ps| - 1];
      var p := ps[|ps| - 1];
      AggregateTotals(init, d);
      assert Keys(ps) == Keys(init) + [GetKey(p)];
      var t0 := Aggregate(init);
      var t := Aggregate(ps);
      if d == GetKey(p) {
        var before := if d in t0.storage then TotalMinutes(t0.storage[d]) else 0;
        assert before == DayMinutes(init, d);
        assert DayMinutes(ps, d) == before + EntryMinutes(p);
        assert TotalMinutes(t.storage[d]) == DayMinutes(ps, d);
        NormalFormUnique(t.storage[d], FromMinutes(DayMinutes(ps, d)));
      } else {
        assert DayMinutes(ps, d) == DayMinutes(init, d);
      }
    }
  }

  /** Index of the first line with key `d`. */
  function FirstSeen(ks: seq<Date>, d: Date): (k: nat)
    requires d in ks
    ensures k < |ks| && ks[k] == d && d !in ks[..k]
  {
    if ks[0] == d then 0 else 1 + FirstSeen(ks[1..], d)
  }

  lemma FirstSeenExtend(ks: seq<Date>, d: Date, e: Date)
    requires d in ks
    ensures d in ks + [e] && FirstSeen(ks + [e], d) == FirstSeen(ks, d)
  {
    var k := FirstSeen(ks, d);
    var k' := FirstSeen(ks + [e], d);
    assert (ks + [e])[k] == d;
  }

  /**
   * After a run, the table lists exactly the days some line had: the key-set
   * half of `AggregateOrder`, obtained here from `AggregateTotals` alone.
   */
  lemma AggregateKeys(ps: seq<ParsedDatetime>)
    ensures forall d :: d in Aggregate(ps).order <==> d in Keys(ps)
  {
    forall d ensures d in Aggregate(ps).order <==> d in Keys(ps) {
      AggregateTotals(ps, d);
    }
  }

  /** Ordered by first sight, `order` stays so when a line with key `key` follows. */
  lemma FirstSeenOrderExtend(o0: seq<Date>, o: seq<Date>, ks0: seq<Date>, key: Date)
    requires forall d :: d in o0 <==> d in ks0
    requires forall i, j :: 0 <= i < j < |o0| ==> FirstSeen(ks0, o0[i]) < FirstSeen(ks0, o0[j])
    requires o == if key in o0 then o0 else o0 + [key]
    ensures forall d :: d in o <==> d in ks0 + [key]
    ensures forall i, j :: 0 <= i < j < |o| ==> FirstSeen(ks0 + [key], o[i]) < FirstSeen(ks0 + [key], o[j])
  {
    var ks := ks0 + [key];
    forall d ensures d in o <==> d in ks {
      assert d in ks <==> d in ks0 || d == key;
    }
    forall i | 0 <= i < |o0| ensures FirstSeen(ks, o0[i]) == FirstSeen(ks0, o0[i]) {
      FirstSeenExtend(ks0, o0[i], key);
    }
    if key !in o0 {
      FirstSeenAppended(ks0, key);
      forall i, j | 0 <= i < j < |o| ensures FirstSeen(ks, o[i]) < FirstSeen(ks, o[j]) {
        assert o[i] == o0[i];
        if j < |o0| {
          assert o[j] == o0[j];
        }
      }
    }
  }

  /** A key never seen before is first seen at the end. */
  lemma FirstSeenAppended(ks0: seq<Date>, key: Date)
    requires key !in ks0
    ensures key in ks0 + [key] && FirstSeen(ks0 + [key], key) == |ks0|
    ensures forall d :: d in ks0 ==> FirstSeen(ks0, d) < |ks0|
  {
    assert (ks0 + [key])[|ks0|] == key;
  }

  /**
   * After a run, the table lists its days in the order each was first seen:
   * adding to a day already present never moves it.
   */
  lemma {:induction false} AggregateOrder(ps: seq<ParsedDatetime>)
    ensures forall d :: d in Aggregate(ps).order <==> d in Keys(ps)
    ensures forall i, j :: 0 <= i < j < |Aggregate(ps).order| ==>
      FirstSeen(Keys(ps), Aggregate(ps).order[i]) < FirstSeen(Keys(ps), Aggregate(ps).order[j])
  {
    if ps != [] {
      var init, p := ps[..|ps| - 1], ps[|ps| - 1];
      AggregateOrder(init);
      var t0 := Aggregate(init);
      var t := Aggregate(ps);
      assert t == Added(t0, p);
      assert Keys(ps) == Keys(init) + [GetKey(p)];
      AddedOrder(t0, p);
      FirstSeenOrderExtend(t0.order, t.order, Keys(init), GetKey(p));
    }
  }

  // ----- the aggregator object -----

  class AggregatedTimeIntoDays {
    var storage: map<Date, Time>
    /** The keys of `storage` in first-insertion order. */
    var order: seq<Date>

    function Snapshot(): Table
      reads this
    {
      Table(storage, order)
    }

    ghost predicate Valid()
      reads this
    {
      Consistent(Snapshot())
    }

    constructor ()
      ensures Valid() && Snapshot() == Empty
    {
      storage := map[];
      order := [];
    }

    method Add(p: ParsedDatetime)
      requires Valid()
      modifies this
      ensures Valid()
      ensures Snapshot() == Added(old(Snapshot()), p)
    {
      AddedConsistent(Snapshot(), p);
      var key := GetKey(p);
      InitInStorageIfNotExists(key);
      storage := storage[key := SumNewAndPreviousTime(storage[key], p.extraNumber, p.hours, p.minutes)];
    }

    method InitInStorageIfNotExists(key: Date)
      modifies this
      ensures Snapshot() == WithKey(old(Snapshot()), key)
      ensures old(Valid()) ==> Valid()
    {
      if Valid() {
        WithKeyConsistent(Snapshot(), key);
      }
      if key !in storage {
        storage := storage[key := Time(0, 0)];
        order := order + [key];
      }
    }

    /** `__iter__`: the (date, time) pairs, in first-insertion order. */
    method Items() returns (items: seq<(Date, Time)>)
      requires Valid()
      ensures items == Entries(Snapshot())
    {
      items := [];
      var i := 0;
      while i < |order|
        invariant 0 <= i <= |order|
        invariant items == Entries(Snapshot())[..i]
      {
        var date := order[i];
        items := items + [(date, storage[date])];
        i := i + 1;
      }
    }
  }

  /**
   * The pairs `Items` yields for a table: the definition of `dict.items()`
   * order over the insertion-ordered keys. `AggregateEntries` proves what it
   * lists after a run.
   */
  function Entries(t: Table): (items: seq<(Date, Time)>)
    requires Consistent(t)
    ensures |items| == |t.order|
    ensures forall i :: 0 <= i < |items| ==> items[i].0 == t.order[i] && items[i].1 == t.storage[t.order[i]]
  {
    seq(|t.order|, i requires 0 <= i < |t.order| => (t.order[i], t.storage[t.order[i]]))
  }

  /**
   * The pairs iteration yields after a run: each day once, in first-seen
   * order, with the normalised sum of that day's lines.
   */
  lemma AggregateEntries(ps: seq<ParsedDatetime>)
    ensures forall k :: 0 <= k < |Entries(Aggregate(ps))| ==>
      var e := Entries(Aggregate(ps))[k]; e.0 in Keys(ps) && e.1 == FromMinutes(DayMinutes(ps, e.0))
    ensures forall d :: d in Keys(ps) ==>
      exists k :: 0 <= k < |Entries(Aggregate(ps))| && Entries(Aggregate(ps))[k].0 == d
    ensures forall k, l :: 0 <= k < l < |Entries(Aggregate(ps))| ==>
      FirstSeen(Keys(ps), Entries(Aggregate(ps))[k].0) < FirstSeen(Keys(ps), Entries(Aggregate(ps))[l].0)
  {
    var t := Aggregate(ps);
    var es := Entries(t);
    AggregateOrder(ps);
    forall k | 0 <= k < |es| ensures es[k].0 in Keys(ps) && es[k].1 == FromMinutes(DayMinutes(ps, es[k].0)) {
      assert es[k].0 == t.order[k];
      AggregateTotals(ps, es[k].0);
    }
    forall d | d in Keys(ps) ensures exists k :: 0 <= k < |es| && es[k].0 == d {
      var k :| 0 <= k < |t.order| && t.order[k] == d;
      assert es[k].0 == d;
    }
    forall k, l | 0 <= k < l < |es| ensures FirstSeen(Keys(ps), es[k].0) < FirstSeen(Keys(ps), es[l].0) {
      assert es[k].0 == t.order[k] && es[l].0 == t.order[l];
    }
  }

  // ----- the aggregator's unit tests -----

  /** Two adds of 22:50 to one day give 45:40, and that day comes first. */
  method AccumulationExample() returns (first: (Date, Time))
    ensures first == (Date("Jul", 2), Time(45, 40))
  {
    var agg := new AggregatedTimeIntoDays();
    agg.Add(ParsedDatetime("Jul", 2, None, 22, 50));
    agg.Add(ParsedDatetime("Jul", 2, None, 22, 50));
    var items := agg.Items();
    first := items[0];
  }

  /** A line marked "1+" with 23:50 gives 47:50: the flat 24-hour bonus. */
  method ExtraNumberExample() returns (first: (Date, Time))
    ensures first == (Date("Jul", 2), Time(47, 50))
  {
    var agg := new AggregatedTimeIntoDays();
    agg.Add(ParsedDatetime("Jul", 2, Some(1), 23, 50));
    var items := agg.Items();
    first := items[0];
  }

  /** Iterating twice with no add in between yields the same pairs. */
  method IterationRepeatable(agg: AggregatedTimeIntoDays) returns (a: seq<(Date, Time)>, b: seq<(Date, Time)>)
    requires agg.Valid()
    ensures a == b
  {
    a := agg.Items();
    b := agg.Items();
  }
}
