/** Exactly when a turn is reported, whatever other facts lie between the three it is joined from. */
module ReducerReports {
  import opened Common
  import opened AnalyticsReducer
  import opened ReducerTurns

  // ----- Nothing is lost -----

  /** In every run in which something comes at most once for a turn, it is either still held or has been reported. */
  lemma {:induction false} RunConserves(facts: seq<Fact>, turn: string)
    ensures var r := Run(facts);
      && (Completions(facts, turn) <= 1 ==> EventsOf(r.1, turn) + Bit(HasCompletion(r.0, turn)) == Completions(facts, turn))
      && (Configurations(facts, turn) <= 1 ==> EventsOf(r.1, turn) + Bit(HasConfig(r.0, turn)) == Configurations(facts, turn))
      && (MatchedStarts(facts, turn) <= 1 ==> EventsOf(r.1, turn) + Bit(HasConnection(r.0, turn)) == MatchedStarts(facts, turn))
  {
    if facts != [] {
      var init, f := facts[..|facts| - 1], facts[|facts| - 1];
      RunConserves(init, turn);
      StepConserves(Run(init).0, f, turn);
      EventsOfConcat(Run(init).1, Ingest(Run(init).0, f).1, turn);
    }
  }

  // ----- A configured turn has a thread and an image count -----

  ghost predicate ConfigComplete(s: Reducer, turn: string)
  {
    HasConfig(s, turn) ==> s.turns[turn].thread.Some? && s.turns[turn].images.Some?
  }

  lemma UpdateConfigComplete(s: Reducer, f: TurnFact, turn: string)
    requires ConfigComplete(s, turn)
    ensures ConfigComplete(UpdateTurn(s, f), turn)
  {
  }

  lemma StepConfigComplete(s: Reducer, f: Fact, turn: string)
    requires ConfigComplete(s, turn)
    ensures ConfigComplete(Ingest(s, f).0, turn)
  {
    if f.OfTurn? {
      UpdateConfigComplete(s, f.t, turn);
      if JoinCheck(s, f.t).Some? { EmitOnce(UpdateTurn(s, f.t), JoinCheck(s, f.t).value, turn); }
    } else {
      OtherStepPays(s, f, turn);
    }
  }

  lemma {:induction false} RunConfigComplete(facts: seq<Fact>, turn: string)
    ensures ConfigComplete(Run(facts).0, turn)
  {
    if facts != [] {
      RunConfigComplete(facts[..|facts| - 1], turn);
      StepConfigComplete(Run(facts[..|facts| - 1]).0, facts[|facts| - 1], turn);
    }
  }

  // ----- Counts only grow -----

  lemma {:induction false} CountsGrow(facts: seq<Fact>, i: nat, turn: string)
    requires i <= |facts|
    ensures Completions(facts[..i], turn) <= Completions(facts, turn)
    ensures Configurations(facts[..i], turn) <= Configurations(facts, turn)
    ensures MatchedStarts(facts[..i], turn) <= MatchedStarts(facts, turn)
    ensures EventsOf(Run(facts[..i]).1, turn) <= EventsOf(Run(facts).1, turn)
    decreases |facts|
  {
    if i == |facts| {
      assert facts[..i] == facts;
    } else {
      var init, f := facts[..|facts| - 1], facts[|facts| - 1];
      CountsGrow(init, i, turn);
      assert init[..i] == facts[..i];
      EventsOfConcat(Run(init).1, Ingest(Run(init).0, f).1, turn);
    }
  }

  // ----- Exactly one report -----

  predicate EachOnce(facts: seq<Fact>, turn: string)
  {
    Completions(facts, turn) == 1 && Configurations(facts, turn) == 1 && MatchedStarts(facts, turn) == 1
  }

  /** The turn's connection and the metadata of its thread are known. */
  predicate ContextKnown(s: Reducer, turn: string)
  {
    && turn in s.turns && s.turns[turn].connection.Some? && s.turns[turn].connection.value in s.connections
    && s.turns[turn].thread.Some? && MetadataOf(s, s.turns[turn].thread.value).Some?
  }

  /** The `i`th fact checks the join of this turn when its context is known. */
  predicate ChecksKnown(facts: seq<Fact>, i: nat, turn: string)
    requires i < |facts|
  {
    var s := Run(facts[..i]).0;
    facts[i].OfTurn? && JoinCheck(s, facts[i].t) == Some(turn) && ContextKnown(UpdateTurn(s, facts[i].t), turn)
  }

  /** Once all three have come, a check with the context known leaves the turn reported. */
  lemma CheckReports(facts: seq<Fact>, i: nat, turn: string)
    requires i < |facts| && EachOnce(facts[..i + 1], turn) && ChecksKnown(facts, i, turn)
    ensures EventsOf(Run(facts[..i + 1]).1, turn) == 1
  {
    var upTo, s, f := facts[..i + 1], Run(facts[..i]).0, facts[i].t;
    assert upTo[..i] == facts[..i] && upTo[i] == facts[i];
    var u := UpdateTurn(s, f);
    RunConserves(upTo, turn);
    RunConserves(upTo[..i], turn);
    CountsGrow(upTo, i, turn);
    EventsOfConcat(Run(upTo[..i]).1, IngestTurn(s, f).1, turn);
    UpdateCompletion(s, f, turn);
    UpdateConfig(s, f, turn);
    UpdateConnection(s, f, turn);
    RunConfigComplete(facts[..i], turn);
    UpdateConfigComplete(s, f, turn);
    EmitOnce(u, turn, turn);
    if EventsOf(Run(facts[..i]).1, turn) == 0 { assert Joined(u.turns[turn]); }
  }

  /** A turn event is emitted by some fact that checks the join with the context known. */
  lemma {:induction false} FindReport(facts: seq<Fact>, turn: string) returns (i: nat)
    requires EventsOf(Run(facts).1, turn) > 0
    ensures i < |facts| && ChecksKnown(facts, i, turn) && EventsOf(Run(facts[..i + 1]).1, turn) > 0
    decreases |facts|
  {
    assert facts != [];
    var init, f := facts[..|facts| - 1], facts[|facts| - 1];
    EventsOfConcat(Run(init).1, Ingest(Run(init).0, f).1, turn);
    if EventsOf(Run(init).1, turn) > 0 {
      i := FindReport(init, turn);
      assert init[..i] == facts[..i] && init[..i + 1] == facts[..i + 1] && init[i] == facts[i];
    } else {
      i := |facts| - 1;
      assert facts[..i + 1] == facts;
      ReporterChecks(Run(init).0, f, turn);
    }
  }

  lemma ReporterChecks(s: Reducer, f: Fact, turn: string)
    requires EventsOf(Ingest(s, f).1, turn) > 0
    ensures f.OfTurn? && JoinCheck(s, f.t) == Some(turn) && ContextKnown(UpdateTurn(s, f.t), turn)
  {
    if !f.OfTurn? {
      OtherStepPays(s, f, turn);
    } else if JoinCheck(s, f.t).None? {
      NoTurnEvents(SteerReport(s, f.t), turn);
    } else {
      EmitOnce(UpdateTurn(s, f.t), JoinCheck(s, f.t).value, turn);
    }
  }

  /**
  In every run in which a turn's matched start, resolved config and completion
  come once each, in any order and with any facts between them, the turn is
  reported exactly once if some fact checks the join after all three have come
  with the context known, and not at all otherwise.
  */
  lemma ReportedExactlyOnceIff(facts: seq<Fact>, turn: string)
    requires EachOnce(facts, turn)
    ensures EventsOf(Run(facts).1, turn) <= 1
    ensures EventsOf(Run(facts).1, turn) == 1
      <==> exists i :: 0 <= i < |facts| && EachOnce(facts[..i + 1], turn) && ChecksKnown(facts, i, turn)
  {
    TurnEventsBounded(facts, turn);
    if EventsOf(Run(facts).1, turn) == 1 {
      var i := FindReport(facts, turn);
      TurnEventsBounded(facts[..i + 1], turn);
      CountsGrow(facts, i + 1, turn);
    }
    if i :| 0 <= i < |facts| && EachOnce(facts[..i + 1], turn) && ChecksKnown(facts, i, turn) {
      CheckReports(facts, i, turn);
      CountsGrow(facts, i + 1, turn);
    }
  }

  /** In particular: one report, when the context is known as the last of the three arrives. */
  lemma ReportedOnceWhenKnown(facts: seq<Fact>, last: nat, turn: string)
    requires last < |facts| && EachOnce(facts, turn) && EachOnce(facts[..last + 1], turn)
    requires var s, f := Run(facts[..last]).0, facts[last];
      && (Completes(f, turn) || Configures(f, turn) || Starts(s, f, turn))
      && ContextKnown(UpdateTurn(s, f.t), turn)
    ensures EventsOf(Run(facts).1, turn) == 1
  {
    assert ChecksKnown(facts, last, turn);
    ReportedExactlyOnceIff(facts, turn);
  }
}
