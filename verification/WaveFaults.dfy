/** When the result of building waves depends on the order of the input. Success and the waves never do;
    the error that is reported does as soon as there are two errors to choose from. */
module WaveFaults {
  import opened Order
  import opened OrderingGraph
  import opened Domain
  import opened Budget
  import opened Waves
  import opened WaveBuilder

  // --- Faults ---

  ghost predicate Blank(steps: seq<Step>) {
    exists i :: 0 <= i < |steps| && steps[i].id == ""
  }

  ghost predicate Repeats(steps: seq<Step>, id: string) {
    exists i, j :: 0 <= i < j < |steps| && steps[i].id == id && steps[j].id == id
  }

  /** The errors that the ids of a list justify, whatever its order. */
  ghost predicate IsFault(steps: seq<Step>, e: WaveError) {
    || (e == IdRequired && Blank(steps))
    || (e.DuplicateStep? && e.id != "" && Repeats(steps, e.id))
  }

  ghost predicate OneFault(steps: seq<Step>) {
    forall e, f :: IsFault(steps, e) && IsFault(steps, f) ==> e == f
  }

  lemma FaultsGrow(init: seq<Step>, last: Step, e: WaveError)
    requires IsFault(init, e)
    ensures IsFault(init + [last], e)
  {
    var steps := init + [last];
    if e == IdRequired {
      var i :| 0 <= i < |init| && init[i].id == "";
      assert steps[i] == init[i];
    } else {
      var i, j :| 0 <= i < j < |init| && init[i].id == e.id && init[j].id == e.id;
      assert steps[i] == init[i] && steps[j] == init[j];
    }
  }

  /** What is reported is a fault of the list. */
  lemma {:induction false} ReportsAFault(steps: seq<Step>)
    requires Load(steps).Failure?
    ensures IsFault(steps, Load(steps).error)
  {
    var init, last := steps[..|steps| - 1], steps[|steps| - 1];
    assert steps == init + [last];
    if Load(init).Failure? {
      ReportsAFault(init);
      FaultsGrow(init, last, Load(init).error);
    } else if last.id == "" {
      assert steps[|init|].id == "";
    } else {
      LoadIff(init);
      var i :| 0 <= i < |init| && init[i].id == last.id;
      assert steps[i].id == last.id && steps[|init|].id == last.id;
    }
  }

  lemma FaultyFails(steps: seq<Step>, e: WaveError)
    requires IsFault(steps, e)
    ensures Load(steps).Failure?
  {
    LoadIff(steps);
  }

  // --- Rearranging ---

  lemma ClonesConcat(s: seq<Step>, t: seq<Step>)
    ensures Clones(s + t) == Clones(s) + Clones(t)
  {
  }

  lemma Moved(a: seq<Step>, x: Step, b: seq<Step>)
    ensures SameSteps([x] + (a + b), a + [x] + b)
  {
    var ca, cx, cb := Clones(a), Clones([x]), Clones(b);
    ClonesConcat(a, b);
    ClonesConcat([x], a + b);
    ClonesConcat(a, [x]);
    ClonesConcat(a + [x], b);
    MovedMultiset(ca, cx, cb);
  }

  lemma MovedMultiset(a: seq<Step>, x: seq<Step>, b: seq<Step>)
    ensures multiset(x + (a + b)) == multiset(a + x + b)
  {
    assert multiset(x + (a + b)) == multiset(x) + multiset(a + b);
    assert multiset(a + b) == multiset(a) + multiset(b);
    assert multiset(a + x + b) == multiset(a + x) + multiset(b);
    assert multiset(a + x) == multiset(a) + multiset(x);
  }

  lemma Pulled(steps: seq<Step>, i: nat)
    requires i < |steps|
    ensures SameSteps([steps[i]] + (steps[..i] + steps[i + 1..]), steps)
  {
    Moved(steps[..i], steps[i], steps[i + 1..]);
    assert steps[..i] + [steps[i]] + steps[i + 1..] == steps;
  }

  /** A list whose first id is empty reports just that. */
  lemma BlankFirst(x: Step, rest: seq<Step>)
    requires x.id == ""
    ensures Load([x] + rest) == Failure(IdRequired)
  {
    assert ([x] + rest)[..1] == [x] && [x][..0] == [];
    LoadFails([x] + rest, 1);
  }

  /** A list that starts with two equal ids reports the second. */
  lemma TwinsFirst(x: Step, y: Step, rest: seq<Step>)
    requires x.id == y.id != ""
    ensures Load([x] + ([y] + rest)) == Failure(DuplicateStep(x.id))
  {
    var steps := [x] + ([y] + rest);
    assert [x][..0] == [] && [x, y][..1] == [x];
    assert Load([x]) == Success(map[x.id := CloneStep(x)]);
    assert Load([x, y]) == Failure(DuplicateStep(x.id));
    assert steps[..2] == [x, y];
    LoadFails(steps, 2);
  }

  /** Every fault is what some order of the list reports. */
  lemma CanBeReported(steps: seq<Step>, e: WaveError) returns (other: seq<Step>)
    requires IsFault(steps, e)
    ensures SameSteps(steps, other) && Load(other) == Failure(e)
  {
    if e == IdRequired {
      var i :| 0 <= i < |steps| && steps[i].id == "";
      other := [steps[i]] + (steps[..i] + steps[i + 1..]);
      Pulled(steps, i);
      BlankFirst(steps[i], steps[..i] + steps[i + 1..]);
    } else {
      var i, j :| 0 <= i < j < |steps| && steps[i].id == e.id && steps[j].id == e.id;
      other := TwinsPulled(steps, i, j);
    }
  }

  lemma SameCons(x: Step, s: seq<Step>, t: seq<Step>)
    requires SameSteps(s, t)
    ensures SameSteps([x] + s, [x] + t)
  {
    ClonesConcat([x], s);
    ClonesConcat([x], t);
    ConsMultiset(Clones([x]), Clones(s));
    ConsMultiset(Clones([x]), Clones(t));
  }

  lemma ConsMultiset(x: seq<Step>, s: seq<Step>)
    ensures multiset(x + s) == multiset(x) + multiset(s)
  {
  }

  lemma PulledTwice(a: seq<Step>, x: Step, b: seq<Step>, y: Step, c: seq<Step>)
    ensures SameSteps([x] + ([y] + (a + b + c)), a + [x] + (b + [y] + c))
  {
    Moved(a, x, b + [y] + c);
    Moved(a + b, y, c);
    assert a + (b + [y] + c) == a + b + [y] + c;
    SameCons(x, [y] + (a + b + c), a + b + [y] + c);
  }

  lemma TwinsPulled(steps: seq<Step>, i: nat, j: nat) returns (other: seq<Step>)
    requires i < j < |steps| && steps[i].id == steps[j].id != ""
    ensures SameSteps(steps, other) && Load(other) == Failure(DuplicateStep(steps[i].id))
  {
    var a, b, c := steps[..i], steps[i + 1..j], steps[j + 1..];
    assert steps == a + [steps[i]] + (b + [steps[j]] + c);
    other := [steps[i]] + ([steps[j]] + (a + b + c));
    PulledTwice(a, steps[i], b, steps[j], c);
    TwinsFirst(steps[i], steps[j], a + b + c);
  }

  // --- The faults do not depend on the order ---

  lemma BlankWithin(steps: seq<Step>, steps': seq<Step>)
    requires SameSteps(steps, steps') && Blank(steps)
    ensures Blank(steps')
  {
    var i :| 0 <= i < |steps| && steps[i].id == "";
    SameMultisetSameMembers(Clones(steps), Clones(steps'));
    assert Clones(steps)[i] in Clones(steps');
    var j :| 0 <= j < |steps'| && Clones(steps')[j] == Clones(steps)[i];
    assert steps'[j].id == "";
  }

  lemma RepeatsWithin(steps: seq<Step>, steps': seq<Step>, id: string)
    requires SameSteps(steps, steps') && Repeats(steps, id)
    ensures Repeats(steps', id)
  {
    var i, j :| 0 <= i < j < |steps| && steps[i].id == id && steps[j].id == id;
    var k, l := TwoPlaces(Clones(steps), Clones(steps'), i, j);
    assert steps'[k].id == id && steps'[l].id == id;
  }

  lemma FaultsWithin(steps: seq<Step>, steps': seq<Step>, e: WaveError)
    requires SameSteps(steps, steps') && IsFault(steps, e)
    ensures IsFault(steps', e)
  {
    if e == IdRequired {
      BlankWithin(steps, steps');
    } else {
      RepeatsWithin(steps, steps', e.id);
    }
  }

  // --- The exact condition ---

  /** Every order of the list, and of the lists inside its steps, has the same result. */
  ghost predicate OrderIsHidden(steps: seq<Step>, limits: Limits) {
    forall steps', r, r' ::
      SameSteps(steps, steps') && Builds(steps, limits, r) && Builds(steps', limits, r') ==> r == r'
  }

  lemma SameResult(steps: seq<Step>, steps': seq<Step>, limits: Limits, r: Result<seq<Wave>, WaveError>,
                   r': Result<seq<Wave>, WaveError>)
    requires SameSteps(steps, steps') && Builds(steps, limits, r) && Builds(steps', limits, r')
    requires !ValidLimits(limits) || OneFault(steps)
    ensures r == r'
  {
    LoadIgnoresOrder(steps, steps');
    if ValidLimits(limits) && Load(steps).Failure? {
      ReportsAFault(steps);
      ReportsAFault(steps');
      FaultsWithin(steps', steps, Load(steps').error);
    } else if ValidLimits(limits) {
      OneSchedule(Load(steps).value, limits, steps, steps', r, r');
    }
  }

  lemma OneSchedule(pending: map<string, Step>, limits: Limits, steps: seq<Step>, steps': seq<Step>,
                    r: Result<seq<Wave>, WaveError>, r': Result<seq<Wave>, WaveError>)
    requires ValidLimits(limits) && Load(steps) == Load(steps') == Success(pending)
    requires Builds(steps, limits, r) && Builds(steps', limits, r')
    ensures r == r'
  {
    if Closed(DependencyGraph(pending)) && !Cyclic(DependencyGraph(pending)) {
      var waves :| r == Success(Numbered(waves)) && GreedyWaves(KeysFor, limits, pending, waves);
      var waves' :| r' == Success(Numbered(waves')) && GreedyWaves(KeysFor, limits, pending, waves');
      GreedyUnique(KeysFor, limits, pending, waves, waves');
    }
  }

  /** An order that reports `e` differs from one that reports something else. */
  lemma Shows(steps: seq<Step>, limits: Limits, e: WaveError)
    requires ValidLimits(limits) && IsFault(steps, e) && Load(steps) != Failure(e)
    ensures !OrderIsHidden(steps, limits)
  {
    FaultyFails(steps, e);
    var other := CanBeReported(steps, e);
    assert Builds(steps, limits, Failure(Load(steps).error)) && Builds(other, limits, Failure(e));
  }

  /** The order of the input never shows in the result exactly when the limits are invalid or there is at most
      one error to report: an empty id, or one repeated id, but not both and not two. */
  lemma OrderIsHiddenIff(steps: seq<Step>, limits: Limits)
    ensures OrderIsHidden(steps, limits) <==> !ValidLimits(limits) || OneFault(steps)
  {
    if !ValidLimits(limits) || OneFault(steps) {
      forall steps', r, r' | SameSteps(steps, steps') && Builds(steps, limits, r) && Builds(steps', limits, r')
        ensures r == r'
      {
        SameResult(steps, steps', limits, r, r');
      }
    } else {
      var e, f :| IsFault(steps, e) && IsFault(steps, f) && e != f;
      if Load(steps) != Failure(e) {
        Shows(steps, limits, e);
      } else {
        Shows(steps, limits, f);
      }
    }
  }

  /** Lists that show their order: an empty id beside a repeated one, and two repeated ids. */
  lemma OrderShows(a: Step, b: Step, blank: Step, limits: Limits)
    requires ValidLimits(limits) && a.id != "" && b.id != "" && a.id != b.id && blank.id == ""
    ensures !OrderIsHidden([a, a, blank], limits) && !OrderIsHidden([a, a, b, b], limits)
  {
    BlankAndTwins(a, blank);
    OrderIsHiddenIff([a, a, blank], limits);
    TwoTwins(a, b);
    OrderIsHiddenIff([a, a, b, b], limits);
  }

  lemma BlankAndTwins(a: Step, blank: Step)
    requires a.id != "" && blank.id == ""
    ensures !OneFault([a, a, blank])
  {
    var s := [a, a, blank];
    assert s[0].id == a.id && s[1].id == a.id && s[2].id == "";
    assert IsFault(s, DuplicateStep(a.id)) && IsFault(s, IdRequired);
  }

  lemma TwoTwins(a: Step, b: Step)
    requires a.id != "" && b.id != "" && a.id != b.id
    ensures !OneFault([a, a, b, b])
  {
    var t := [a, a, b, b];
    assert t[0].id == a.id && t[1].id == a.id && t[2].id == b.id && t[3].id == b.id;
    assert IsFault(t, DuplicateStep(a.id)) && IsFault(t, DuplicateStep(b.id));
  }
}
