/**
 * The driver `main` of time_parser.py without its I/O: the lines that
 * `line_reader` would read from a file are a parameter, and the pairs that
 * `main` prints are returned instead.
 *
 * `main` parses each line and adds it to one aggregator. A line that does not
 * parse makes `parse_line` raise, which ends the run with no output; here
 * the run then yields `None`.
 */
module Driver {
  import opened Wrappers
  import opened LineParser
  import opened Aggregator

  /** The outcome of `parse_line` on each line, in order. */
  function Results(lines: seq<string>): (rs: seq<Option<ParsedDatetime>>)
    ensures |rs| == |lines|
  {
    if lines == [] then [] else Results(lines[..|lines| - 1]) + [ParseLine(lines[|lines| - 1])]
  }

  /** `Results` holds each line's outcome at that line's index. */
  lemma {:induction false} ResultsAt(lines: seq<string>, i: nat)
    requires i < |lines|
    ensures Results(lines)[i] == ParseLine(lines[i])
  {
    var init := lines[..|lines| - 1];
    if i < |init| {
      ResultsAt(init, i);
      assert init[i] == lines[i];
    }
  }

  /** All the values, or `None` as soon as one outcome is `None`. */
  function Collect<T>(rs: seq<Option<T>>): Option<seq<T>> {
    if rs == [] then Some([])
    else
      match (Collect(rs[..|rs| - 1]), rs[|rs| - 1])
      case (Some(vs), Some(v)) => Some(vs + [v])
      case _ => None
  }

  /** `Collect` succeeds exactly when no outcome is `None`. */
  lemma {:induction false} CollectSucceeds<T>(rs: seq<Option<T>>)
    ensures Collect(rs).Some? <==> forall i :: 0 <= i < |rs| ==> rs[i].Some?
  {
    if rs != [] {
      var init := rs[..|rs| - 1];
      CollectSucceeds(init);
      if Collect(init).None? {
        var k :| 0 <= k < |init| && init[k].None?;
        assert init[k] == rs[k];
      } else {
        assert forall i :: 0 <= i < |init| ==> init[i] == rs[i];
      }
    }
  }

  /** When `Collect` succeeds it holds every value, in order. */
  lemma {:induction false} CollectValues<T>(rs: seq<Option<T>>)
    requires Collect(rs).Some?
    ensures |Collect(rs).value| == |rs|
    ensures forall i :: 0 <= i < |rs| ==> rs[i] == Some(Collect(rs).value[i])
  {
    if rs != [] {
      var init := rs[..|rs| - 1];
      CollectValues(init);
      var vs := Collect(rs).value;
      assert vs == Collect(init).value + [rs[|rs| - 1].value];
      forall i | 0 <= i < |rs| ensures rs[i] == Some(vs[i]) {
        if i < |init| {
          assert init[i] == rs[i];
        }
      }
    }
  }

  /** The parsed lines, or `None` when any line does not parse. */
  function ParseAll(lines: seq<string>): Option<seq<ParsedDatetime>> {
    Collect(Results(lines))
  }

  /** `ParseAll` succeeds exactly when every line parses. */
  lemma ParseAllSucceeds(lines: seq<string>)
    ensures ParseAll(lines).Some? <==> forall i :: 0 <= i < |lines| ==> ParseLine(lines[i]).Some?
  {
    CollectSucceeds(Results(lines));
    forall i | 0 <= i < |lines| ensures Results(lines)[i] == ParseLine(lines[i]) {
      ResultsAt(lines, i);
    }
  }

  /** When `ParseAll` succeeds it holds the record of every line, in order. */
  lemma ParseAllRecords(lines: seq<string>)
    requires ParseAll(lines).Some?
    ensures |ParseAll(lines).value| == |lines|
    ensures forall i :: 0 <= i < |lines| ==> ParseLine(lines[i]) == Some(ParseAll(lines).value[i])
  {
    CollectValues(Results(lines));
    forall i | 0 <= i < |lines| ensures Results(lines)[i] == ParseLine(lines[i]) {
      ResultsAt(lines, i);
    }
  }

  /** What a run reports: the (date, time) pairs of the aggregated lines, in first-seen order. */
  function Report(lines: seq<string>): Option<seq<(Date, Time)>> {
    match ParseAll(lines)
    case None => None
    case Some(ps) => Some(Entries(Aggregate(ps)))
  }

  /**
   * What a successful run prints: each day of the input once, in the order
   * the days were first seen, with the normalised sum of that day's lines.
   */
  lemma ReportDays(lines: seq<string>)
    requires Report(lines).Some?
    ensures forall k :: 0 <= k < |Report(lines).value| ==>
      var e := Report(lines).value[k];
      e.0 in Keys(ParseAll(lines).value) && e.1 == FromMinutes(DayMinutes(ParseAll(lines).value, e.0))
    ensures forall d :: d in Keys(ParseAll(lines).value) ==>
      exists k :: 0 <= k < |Report(lines).value| && Report(lines).value[k].0 == d
    ensures forall k, l :: 0 <= k < l < |Report(lines).value| ==>
      FirstSeen(Keys(ParseAll(lines).value), Report(lines).value[k].0)
        < FirstSeen(Keys(ParseAll(lines).value), Report(lines).value[l].0)
  {
    var ps := ParseAll(lines).value;
    assert Report(lines).value == Entries(Aggregate(ps));
    AggregateEntries(ps);
  }

  /** `main`: feeds every line to one aggregator, then iterates over it. */
  method Run(lines: seq<string>) returns (report: Option<seq<(Date, Time)>>)
    ensures report == Report(lines)
  {
    var aggregated := new AggregatedTimeIntoDays();
    ghost var parsed: seq<ParsedDatetime> := [];
    var i := 0;
    while i < |lines|
      invariant 0 <= i <= |lines|
      invariant aggregated.Valid()
      invariant Collect(Results(lines)[..i]) == Some(parsed)
      invariant aggregated.Snapshot() == Aggregate(parsed)
    {
      var parsedDatetime := ParseLine(lines[i]);
      if parsedDatetime.None? {
        RunStops(lines, i);
        return None;
      }
      aggregated.Add(parsedDatetime.value);
      ResultsAt(lines, i);
      CollectStep(Results(lines), i, parsed, parsedDatetime.value);
      AggregateStep(parsed, parsedDatetime.value);
      parsed := parsed + [parsedDatetime.value];
      i := i + 1;
    }
    var items := aggregated.Items();
    RunEnds(lines, parsed);
    report := Some(items);
  }

  /** A line that does not parse makes the whole run report nothing. */
  lemma RunStops(lines: seq<string>, i: nat)
    requires i < |lines| && ParseLine(lines[i]).None?
    ensures Report(lines) == None
  {
    ParseAllSucceeds(lines);
  }

  /** One more value extends what `Collect` gathered from a prefix. */
  lemma CollectStep<T>(rs: seq<Option<T>>, i: nat, vs: seq<T>, v: T)
    requires i < |rs| && Collect(rs[..i]) == Some(vs) && rs[i] == Some(v)
    ensures Collect(rs[..i + 1]) == Some(vs + [v])
  {
    assert rs[..i + 1][..i] == rs[..i];
  }

  /** Once every line has parsed, the report is the entries of their aggregate. */
  lemma RunEnds(lines: seq<string>, parsed: seq<ParsedDatetime>)
    requires Collect(Results(lines)[..|lines|]) == Some(parsed)
    ensures Report(lines) == Some(Entries(Aggregate(parsed)))
  {
    var rs := Results(lines);
    assert rs[..|lines|] == rs;
  }
}
