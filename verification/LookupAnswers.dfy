/** What the lookup server's answers and tables hold, from the requests that came
    before: the last stored version of each resource, and exactly its signatures. */
module LookupAnswers {
  import opened Common
  import opened SigningData
  import opened ObjectHandler
  import opened LookupStore

  /** The last step of a run. */
  lemma {:induction false} LastStep(scheme: Scheme, s: Server, run: seq<Action>, s': Server) returns (before: Server)
    requires Run(scheme, s, run, s') && run != []
    ensures var k := |run| - 1;
            Run(scheme, s, run[..k], before) && Enabled(before, run[k]) && s' == Next(scheme, before, run[k])
    decreases run
  {
    hide Next, Enabled;
    if |run| == 1 {
      before := s;
      assert run[1..] == [] && run[..0] == [];
    } else {
      before := LastStep(scheme, Next(scheme, s, run[0]), run[1..], s');
      var k := |run| - 1;
      assert run[..k][0] == run[0] && run[..k][1..] == run[1..][..k - 1] && run[1..][k - 1] == run[k];
    }
  }

  // ------------------------------------------------------------------- answers

  /** The answer shows with an actor's row every signature that the table holds for its
      number, as it is stored there, and with any other row none. */
  ghost predicate ShowsAll(db: Db, x: Answer) {
    && (forall v: nat :: v in x.keySignatures <==> x.row.typ.Actor? && (v, x.row.num) in db.signatures)
    && (forall v :: v in x.keySignatures ==> x.keySignatures[v] == db.signatures[(v, x.row.num)])
    && x.keys == db.verifiers
  }

  lemma AnswerShowsAll(scheme: Scheme, s: Server, i: nat)
    requires ServerInv(scheme, s) && Enabled(s, ReadSignatures(i))
    ensures var s' := Next(scheme, s, ReadSignatures(i));
            && |s'.answers| == |s.answers| + 1 && s'.answers[..|s.answers|] == s.answers
            && s'.answers[|s.answers|].row == s.requests[i].row && ShowsAll(s.db, s'.answers[|s.answers|])
  {
    hide Verified;
  }

  lemma OtherAnswers(scheme: Scheme, s: Server, a: Action)
    requires Enabled(s, a) && !a.ReadSignatures?
    ensures Next(scheme, s, a).answers == s.answers
  {
    hide Verify;
  }

  /** On every run, each answer was given by a second read: it shows with the row of
      its request exactly the signatures stored at that moment. */
  lemma {:induction false} AnsweredExactly(scheme: Scheme, run: seq<Action>, s: Server, k: nat)
    returns (j: nat, was: Server)
    requires Run(scheme, EMPTY, run, s) && k < |s.answers|
    ensures j < |run| && Run(scheme, EMPTY, run[..j], was) && Enabled(was, run[j]) && run[j].ReadSignatures?
    ensures s.answers[k].row == was.requests[run[j].i].row && ShowsAll(was.db, s.answers[k])
    decreases |run|
  {
    hide ServerInv, ShowsAll, Enabled, Next;
    if run == [] {
      assert false;
    }
    var before := LastStep(scheme, EMPTY, run, s);
    var last := |run| - 1;
    assert ServerInv(scheme, before) by {
      EmptyRight(scheme);
      ServerRun(scheme, EMPTY, run[..last], before);
    }
    if run[last].ReadSignatures? { AnswerShowsAll(scheme, before, run[last].i); } else { OtherAnswers(scheme, before,
        run[last]); }
    if k < |before.answers| {
      assert s.answers[k] == before.answers[k];
      j, was := AnsweredExactly(scheme, run[..last], before, k);
      assert run[..last][..j] == run[..j];
    } else {
      j, was := last, before;
    }
  }

  lemma EmptyRight(scheme: Scheme)
    ensures ServerInv(scheme, EMPTY)
  {
  }

  /** And the row of a request is the one stored when the request came. */
  lemma {:induction false} RowReadExactly(scheme: Scheme, run: seq<Action>, s: Server, i: nat)
    returns (j: nat, was: Server)
    requires Run(scheme, EMPTY, run, s) && i in s.requests && s.requests[i].Reading?
    ensures j < |run| && Run(scheme, EMPTY, run[..j], was) && Enabled(was, run[j]) && run[j].Get? && run[j].i == i
    ensures s.requests[i].row == was.db.rows[run[j].uri]
    decreases |run|
  {
    if run == [] {
      assert false;
    }
    var before := LastStep(scheme, EMPTY, run, s);
    var last := |run| - 1;
    ReadingFrom(scheme, before, run[last], i);
    hide Enabled, Next;
    if run[last].Get? && run[last].i == i {
      j, was := last, before;
    } else {
      j, was := RowReadExactly(scheme, run[..last], before, i);
      assert run[..last][..j] == run[..j];
    }
  }

  lemma ReadingFrom(scheme: Scheme, s: Server, a: Action, i: nat)
    requires Enabled(s, a) && i in Next(scheme, s, a).requests && Next(scheme, s, a).requests[i].Reading?
    ensures if a.Get? && a.i == i then Next(scheme, s, a).requests[i].row == s.db.rows[a.uri]
            else i in s.requests && s.requests[i] == Next(scheme, s, a).requests[i]
  {
    hide Verify;
  }

  /** A request for a stored resource, with nothing else in between, is answered with
      its row and all its signatures. */
  lemma GetAnswered(scheme: Scheme, s: Server, i: nat, uri: Text) returns (s': Server)
    requires ServerInv(scheme, s) && i !in s.requests && uri in s.db.rows
    ensures Run(scheme, s, [Get(i, uri), ReadSignatures(i)], s')
    ensures s' == s.(answers := s'.answers) && |s'.answers| == |s.answers| + 1
    ensures s'.answers[|s.answers|].row == s.db.rows[uri] && ShowsAll(s.db, s'.answers[|s.answers|])
  {
    var s1 := Next(scheme, s, Get(i, uri));
    assert ServerInv(scheme, s1) by { ServerStep(scheme, s, Get(i, uri)); }
    AnswerShowsAll(scheme, s1, i);
    OneStep(scheme, s, Get(i, uri));
    OneStep(scheme, s1, ReadSignatures(i));
    s' := Next(scheme, s1, ReadSignatures(i));
    assert s'.requests == s.requests;
    hide Run, ServerInv, ShowsAll;
    RunJoined(scheme, s, [Get(i, uri)], s1, [ReadSignatures(i)], s');
    assert [Get(i, uri)] + [ReadSignatures(i)] == [Get(i, uri), ReadSignatures(i)];
  }

  // ----------------------------------------------------------------- the tables

  /** How many versions were stored. */
  ghost function StoreCount(run: seq<Action>): nat {
    if run == [] then 0 else StoreCount(run[..|run| - 1]) + if run[|run| - 1].Replace? then 1 else 0
  }

  /** The last place where a version of `uri` was stored. */
  ghost function LastStored(run: seq<Action>, uri: Text): Option<nat> {
    if run == [] then None
    else if run[|run| - 1].Replace? && run[|run| - 1].uri == uri then Some(|run| - 1)
    else LastStored(run[..|run| - 1], uri)
  }

  /** The row of a resource is what was stored for it last, with the number that the
      store got, counting from 1. */
  ghost predicate HoldsLast(run: seq<Action>, db: Db, uri: Text) {
    var j := LastStored(run, uri);
    if j.None? then uri !in db.rows
    else
      && j.value < |run| && run[j.value].Replace?
      && uri in db.rows
      && db.rows[uri] == ObjectRow(StoreCount(run[..j.value + 1]), uri, run[j.value].typ, run[j.value].json,
          run[j.value].aux)
  }

  lemma StepTable(scheme: Scheme, s: Server, a: Action)
    requires Enabled(s, a)
    ensures var s' := Next(scheme, s, a);
            && s'.db.lastNum == s.db.lastNum + (if a.Replace? then 1 else 0)
            && s'.db.rows == if a.Replace? then
                               s.db.rows[a.uri := ObjectRow(s.db.lastNum + 1, a.uri, a.typ, a.json, a.aux)]
                             else s.db.rows
  {
    hide Verify;
  }

  /** On every run the table holds exactly the last stored version of each resource. */
  lemma {:induction false} TableExactly(scheme: Scheme, run: seq<Action>, s: Server, uri: Text)
    requires Run(scheme, EMPTY, run, s)
    ensures s.db.lastNum == StoreCount(run) && HoldsLast(run, s.db, uri)
    decreases |run|
  {
    hide Enabled, Next;
    if run != [] {
      var before := LastStep(scheme, EMPTY, run, s);
      var last := |run| - 1;
      StepTable(scheme, before, run[last]);
      TableExactly(scheme, run[..last], before, uri);
      var j := LastStored(run[..last], uri);
      assert run[..last + 1] == run;
      if j.Some? { assert run[..last][..j.value + 1] == run[..j.value + 1]; }
    }
  }

  // --------------------------------------------------------------- a submission

  lemma RunJoined(scheme: Scheme, s: Server, run: seq<Action>, s1: Server, more: seq<Action>, s2: Server)
    requires Run(scheme, s, run, s1) && Run(scheme, s1, more, s2)
    ensures Run(scheme, s, run + more, s2)
    decreases run
  {
    hide Next, Enabled;
    if run == [] {
      assert run + more == more;
    } else {
      assert (run + more)[0] == run[0] && (run + more)[1..] == run[1..] + more;
      RunJoined(scheme, Next(scheme, s, run[0]), run[1..], s1, more, s2);
    }
  }

  lemma OneStep(scheme: Scheme, s: Server, a: Action)
    requires Enabled(s, a)
    ensures Run(scheme, s, [a], Next(scheme, s, a))
  {
    hide Next, Enabled;
    assert [a][1..] == [];
  }

  /** One element of a batch: read, checked and written, or skipped, or the end. */
  lemma ElementSteps(scheme: Scheme, s: Server, i: nat) returns (run: seq<Action>, s': Server)
    requires i in s.requests && s.requests[i].Adding? && s.requests[i].rest != []
    ensures Run(scheme, s, run, s')
    ensures var r := s.requests[i];
            match Judge(scheme, s.db.rows, r.key, r.rest[0])
            case Skip => s' == s.(requests := s.requests[i := Adding(r.verifier, r.key, r.rest[1..])])
            case Abort => s' == s.(requests := s.requests - {i})
            case Accept(num, sig, time) =>
              s' == s.(db := InsertSignature(s.db, r.verifier, num, sig, time),
                       requests := s.requests[i := Adding(r.verifier, r.key, r.rest[1..])])
  {
    hide Verify, Run;
    OneStep(scheme, s, ReadRow(i));
    var s1 := Next(scheme, s, ReadRow(i));
    run, s' := [ReadRow(i)], s1;
    if i in s1.requests && s1.requests[i].Checking? {
      OneStep(scheme, s1, CheckSignature(i));
      var s2 := Next(scheme, s1, CheckSignature(i));
      RunJoined(scheme, s, run, s1, [CheckSignature(i)], s2);
      run, s' := run + [CheckSignature(i)], s2;
      if i in s2.requests && s2.requests[i].Writing? {
        OneStep(scheme, s2, WriteSignature(i));
        s' := Next(scheme, s2, WriteSignature(i));
        RunJoined(scheme, s, run, s2, [WriteSignature(i)], s');
        run := run + [WriteSignature(i)];
      }
    }
  }

  /** A batch submitted while nothing else happens leaves what `AddSignatures` says. */
  lemma {:induction false} BatchAlone(scheme: Scheme, s: Server, i: nat) returns (run: seq<Action>, s': Server)
    requires i in s.requests && s.requests[i].Adding?
    ensures Run(scheme, s, run, s')
    ensures var r := s.requests[i];
            s' == s.(db := AddSignatures(scheme, s.db, r.verifier, r.key, r.rest), requests := s.requests - {i})
    decreases |s.requests[i].rest|
  {
    var r := s.requests[i];
    hide Judge, Run;
    if r.rest == [] {
      OneStep(scheme, s, ReadRow(i));
      run, s' := [ReadRow(i)], Next(scheme, s, ReadRow(i));
    } else {
      var s1;
      run, s1 := ElementSteps(scheme, s, i);
      s' := s1;
      if !Judge(scheme, s.db.rows, r.key, r.rest[0]).Abort? {
        var more;
        more, s' := BatchAlone(scheme, s1, i);
        RunJoined(scheme, s, run, s1, more, s');
        run := run + more;
        assert s1.requests - {i} == s.requests - {i};
      }
    }
  }

  lemma SubmittedAlone(scheme: Scheme, s: Server, i: nat, verifier: nat, batch: seq<Submission>)
    returns (run: seq<Action>, s': Server)
    requires Enabled(s, Submit(i, verifier, batch))
    ensures Run(scheme, s, [Submit(i, verifier, batch)] + run, s')
    ensures s' == s.(db := AddSignatures(scheme, s.db, verifier, s.db.verifiers[verifier].key, batch))
  {
    var a := Submit(i, verifier, batch);
    var s1 := Next(scheme, s, a);
    OneStep(scheme, s, a);
    hide AddSignatures, Run;
    run, s' := BatchAlone(scheme, s1, i);
    RunJoined(scheme, s, [a], s1, run, s');
    assert s1.requests - {i} == s.requests;
  }
}
