// Token counts of a session log that gives running totals: what its lines add up to.
module CodexScan {
  import opened Folds
  import opened TokenUsage

  datatype Totals = Totals(input: nat, cached: nat, output: nat, total: nat)

  const START: Totals := Totals(0, 0, 0, 0)

  /** What a line with running totals adds to those of the line before. */
  function Step(last: Totals, total: Totals): Usage {
    if total.total > last.total then
      var cached := Growth(last.cached, total.cached);
      Usage(1, Growth(cached, Growth(last.input, total.input)), Growth(last.output, total.output), cached)
    else NOTHING
  }

  ghost function Added(lines: seq<Totals>): seq<Usage> {
    if lines == [] then [] else
    var n := |lines| - 1;
    Added(lines[..n]) + [Step(LastOf(lines[..n]), lines[n])]
  }

  ghost function LastOf(lines: seq<Totals>): Totals {
    if lines == [] then START else lines[|lines| - 1]
  }

  /** The session's counts since a previous line: only growing, input including what came from the cache. */
  predicate Grows(last: Totals, next: Totals) {
    && last.input <= next.input && last.cached <= next.cached && last.output <= next.output
    && next.cached - last.cached <= next.input - last.input
    && next.total == next.input + next.output
  }

  ghost predicate Running(lines: seq<Totals>) {
    forall i :: 0 <= i < |lines| ==> Grows(LastOf(lines[..i]), lines[i])
  }

  /** One session file, read line by line. */
  class Session {
    var last: Totals
    ghost var lines: seq<Totals>

    ghost predicate Valid()
      reads this
    {
      last == LastOf(lines)
    }

    constructor ()
      ensures Valid() && lines == []
    {
      last, lines := START, [];
    }

    method Line(total: Totals) returns (added: Usage)
      requires Valid()
      modifies this
      ensures Valid() && lines == old(lines) + [total] && Added(lines) == Added(old(lines)) + [added]
    {
      assert (lines + [total])[..|lines|] == lines;
      added := Step(last, total);
      last, lines := total, lines + [total];
    }
  }

  /** While the counts only grow, what the lines add is what the last of them says, whatever was left out or repeated
      in between. */
  lemma {:induction false} AddsUpToLast(lines: seq<Totals>)
    requires Running(lines)
    ensures var sum := LastOf(lines);
            && Sum(Added(lines), Output) == sum.output
            && Sum(Added(lines), Cache) == sum.cached
            && Sum(Added(lines), Input) == sum.input - sum.cached
            && sum.cached <= sum.input && sum.total == sum.input + sum.output
  {
    hide Sum, Step, Grows;
    if lines == [] {
      NothingAdded();
    } else {
      var n := |lines| - 1;
      var before, added := lines[..n], Step(LastOf(lines[..n]), lines[n]);
      assert forall i :: 0 <= i < n ==> before[..i] == lines[..i];
      AddsUpToLast(before);
      assert Grows(LastOf(before), lines[n]);
      SumSnoc(Added(before), added, Output);
      SumSnoc(Added(before), added, Cache);
      SumSnoc(Added(before), added, Input);
      StepGrows(LastOf(before), lines[n]);
    }
  }

  lemma NothingAdded()
    ensures Added([]) == [] && Sum(Added([]), Output) == Sum(Added([]), Cache) == Sum(Added([]), Input) == 0
  {
  }

  lemma StepGrows(last: Totals, next: Totals)
    requires Grows(last, next) && last.cached <= last.input && last.total == last.input + last.output
    ensures var u := Step(last, next);
            && u.output == next.output - last.output && u.cache == next.cached - last.cached
            && u.input == (next.input - next.cached) - (last.input - last.cached)
            && next.cached <= next.input && next.total == next.input + next.output
  {
  }

  /** A line that repeats the counts of the one before adds nothing, and is no request. */
  lemma RepeatAddsNothing(lines: seq<Totals>)
    requires lines != []
    ensures Added(lines + [LastOf(lines)]) == Added(lines) + [NOTHING]
    ensures Sum(Added(lines + [LastOf(lines)]), Requests) == Sum(Added(lines), Requests)
  {
    assert (lines + [LastOf(lines)])[..|lines|] == lines;
    SumSnoc(Added(lines), NOTHING, Requests);
  }
}
