/**
 The stage-1 driver: one stream of candidate stars shared by seven slots, one
 per planet count, until all are filled or the candidate budget is spent.
 */
module Driver {
  import opened Options
  import opened Prng
  import opened Viability
  import Generator
  import Templates

  datatype ViabilityWindow = ViabilityWindow(min: int, max: int) {
    /** The bounds are exclusive on both ends. */
    predicate Accepts(score: int) {
      score > min && score < max
    }
  }

  const DEFAULT_WINDOW := ViabilityWindow(53, 57)
  const DEFAULT_ROLLS: int := 10000

  /** The bounds of a window are outside it; the default takes 54, 55 and 56. */
  lemma WindowTakes(window: ViabilityWindow, score: int)
    ensures window.Accepts(score) <==> window.min + 1 <= score <= window.max - 1
    ensures DEFAULT_WINDOW.Accepts(score) <==> score in {54, 55, 56}
  {
  }

  datatype Slot = Slot(numPlanets: int, template: Option<HomeStarTemplate>, attempts: int, bestScore: int)

  /** Ten slots; the first three are missing. */
  ghost predicate Shaped(slots: seq<Option<Slot>>) {
    |slots| == 10 && forall n :: 0 <= n < 10 ==> (slots[n].Some? <==> n >= 3)
  }

  /** The driver's state, with the scores seen so far for each slot. */
  datatype Drive = Drive(slots: seq<Option<Slot>>, filled: int, log: seq<seq<int>>)

  function Empty(n: int): (s: Option<Slot>) {
    Some(Slot(n, None, 0, 0))
  }

  function Start(): (d: Drive)
    ensures |d.slots| == |d.log| == 10 && d.filled == 0
    ensures forall n :: 0 <= n < 10 ==> d.log[n] == [] && d.slots[n] == if n < 3 then None else Empty(n)
  {
    Drive(
      [None, None, None, Empty(3), Empty(4), Empty(5), Empty(6), Empty(7), Empty(8), Empty(9)],
      0,
      [[], [], [], [], [], [], [], [], [], []])
  }

  function Recorded(s: Slot, tpl: HomeStarTemplate, score: int, window: ViabilityWindow): (r: Slot) {
    Slot(
      s.numPlanets,
      if window.Accepts(score) then Some(tpl) else s.template,
      s.attempts + 1,
      if score > s.bestScore then score else s.bestScore)
  }

  ghost predicate WellFormed(d: Drive) {
    Shaped(d.slots) && |d.log| == 10
  }

  /** One candidate star, and an attempt when it matches an empty slot. */
  ghost function StepOn(t: Tape, d: Drive, window: ViabilityWindow): (r: (Drive, Tape))
    requires WellFormed(d)
    ensures WellFormed(r.0)
  {
    hide Generator.StarOn, AttemptOn;
    var (star, planets, t1) := Generator.StarOn(t);
    var n := star.numPlanets;
    if n < 3 || d.slots[n].value.template.Some? then (d, t1)
    else
      var (tpl, score, t2) := AttemptOn(t1, n);
      (Drive(
        d.slots[n := Some(Recorded(d.slots[n].value, tpl, score, window))],
        d.filled + (if window.Accepts(score) then 1 else 0),
        d.log[n := d.log[n] + [score]]), t2)
  }

  ghost function DriveOn(t: Tape, d: Drive, window: ViabilityWindow, budget: int): (r: (Drive, Tape))
    requires WellFormed(d)
    ensures WellFormed(r.0)
    decreases budget
  {
    if budget <= 0 || d.filled >= 7 then (d, t)
    else
      var (d1, t1) := StepOn(t, d, window);
      DriveOn(t1, d1, window, budget - 1)
  }

  /** The candidates DriveOn rolls: it stops once seven slots are filled. */
  ghost function UsedOn(t: Tape, d: Drive, window: ViabilityWindow, budget: int): (rolls: int)
    requires WellFormed(d)
    ensures 0 <= rolls && (budget >= 0 ==> rolls <= budget)
    decreases budget
  {
    if budget <= 0 || d.filled >= 7 then 0
    else
      var (d1, t1) := StepOn(t, d, window);
      1 + UsedOn(t1, d1, window, budget - 1)
  }

  function Budget(maxCandidateRolls: int): (b: int) {
    if maxCandidateRolls <= 0 then DEFAULT_ROLLS else maxCandidateRolls
  }

  /** Everything the driver does with a random stream. */
  ghost function TemplatesOn(t: Tape, window: ViabilityWindow, maxCandidateRolls: int): (r: (Drive, Tape))
    ensures WellFormed(r.0)
  {
    DriveOn(t, Start(), window, Budget(maxCandidateRolls))
  }

  /** And the candidates it rolls on the way. */
  ghost function RollsOn(t: Tape, window: ViabilityWindow, maxCandidateRolls: int): (rolls: int)
    ensures 0 <= rolls <= Budget(maxCandidateRolls)
  {
    UsedOn(t, Start(), window, Budget(maxCandidateRolls))
  }

  // ----- the program -----

  class Outcome {
    var numPlanets: int
    var template: Option<HomeStarTemplate>
    var attempts: int
    var bestScore: int

    constructor (n: int)
      ensures View() == Slot(n, None, 0, 0)
    {
      numPlanets, template, attempts, bestScore := n, None, 0, 0;
    }

    function View(): (s: Slot)
      reads this
    {
      Slot(numPlanets, template, attempts, bestScore)
    }

    method Record(tpl: HomeStarTemplate, score: int, window: ViabilityWindow) returns (accepted: bool)
      modifies this
      ensures View() == Recorded(old(View()), tpl, score, window)
      ensures accepted == window.Accepts(score)
    {
      attempts := attempts + 1;
      if score > bestScore {
        bestScore := score;
      }
      accepted := window.Accepts(score);
      if accepted {
        template := Some(tpl);
      }
    }
  }

  ghost predicate Laid(outcomes: seq<Outcome?>) {
    && |outcomes| == 10
    && (forall n :: 0 <= n < 10 ==> (outcomes[n] != null <==> n >= 3))
    && (forall i, j :: 3 <= i < j < 10 ==> outcomes[i] != outcomes[j])
  }

  ghost function Objects(outcomes: seq<Outcome?>): (os: set<object>) {
    set n | 0 <= n < |outcomes| && outcomes[n] != null :: outcomes[n]
  }

  /** The objects hold these slots. */
  ghost predicate Shows(outcomes: seq<Outcome?>, slots: seq<Option<Slot>>)
    reads Objects(outcomes)
  {
    && |slots| == |outcomes|
    && forall n :: 0 <= n < |outcomes| ==>
         slots[n] == if outcomes[n] == null then None else Some(outcomes[n].View())
  }

  method NewOutcomes() returns (outcomes: array<Outcome?>)
    ensures fresh(outcomes) && Laid(outcomes[..]) && Shows(outcomes[..], Start().slots)
    ensures fresh(Objects(outcomes[..]))
  {
    outcomes := new Outcome?[10](_ => null);
    var n := 3;
    while n <= 9
      invariant 3 <= n <= 10
      invariant forall i :: 0 <= i < 10 ==> (outcomes[i] != null <==> 3 <= i < n)
      invariant forall i :: 3 <= i < n ==> fresh(outcomes[i]) && outcomes[i].View() == Slot(i, None, 0, 0)
      invariant forall i, j :: 3 <= i < j < n ==> outcomes[i] != outcomes[j]
    {
      outcomes[n] := new Outcome(n);
      n := n + 1;
    }
  }

  /** `used` is the program's own count of the candidates it rolled. */
  method GenerateHomeStarTemplates(rng: PRNG, window: ViabilityWindow, maxCandidateRolls: int)
    returns (outcomes: array<Outcome?>, ghost used: int)
    modifies rng
    ensures fresh(outcomes) && fresh(Objects(outcomes[..])) && Laid(outcomes[..])
    ensures Shows(outcomes[..], TemplatesOn(old(rng.tape), window, maxCandidateRolls).0.slots)
    ensures rng.tape == TemplatesOn(old(rng.tape), window, maxCandidateRolls).1
    ensures used == RollsOn(old(rng.tape), window, maxCandidateRolls)
  {
    hide TemplatesOn, RollsOn, Start, DriveOn, UsedOn, Laid, Shows;
    var budget := maxCandidateRolls;
    if budget <= 0 {
      budget := DEFAULT_ROLLS;
    }
    outcomes := NewOutcomes();
    used := FillSlots(rng, outcomes[..], window, budget);
    RunFromStart(old(rng.tape), window, maxCandidateRolls);
  }

  lemma RunFromStart(t: Tape, window: ViabilityWindow, maxCandidateRolls: int)
    ensures TemplatesOn(t, window, maxCandidateRolls) == DriveOn(t, Start(), window, Budget(maxCandidateRolls))
    ensures RollsOn(t, window, maxCandidateRolls) == UsedOn(t, Start(), window, Budget(maxCandidateRolls))
  {
  }

  /** The driver loop. */
  method FillSlots(rng: PRNG, outcomes: seq<Outcome?>, window: ViabilityWindow, budget: int) returns (ghost used: int)
    requires budget >= 0 && Laid(outcomes) && Shows(outcomes, Start().slots)
    modifies rng, Objects(outcomes)
    ensures Shows(outcomes, DriveOn(old(rng.tape), Start(), window, budget).0.slots)
    ensures rng.tape == DriveOn(old(rng.tape), Start(), window, budget).1
    ensures used == UsedOn(old(rng.tape), Start(), window, budget)
  {
    hide StepOn, Shows, Laid;
    ghost var target := DriveOn(rng.tape, Start(), window, budget);
    ghost var allRolls := UsedOn(rng.tape, Start(), window, budget);
    ghost var d := Start();
    var filled := 0;
    var rolls := 0;
    while rolls < budget && filled < 7
      invariant 0 <= rolls <= budget
      invariant WellFormed(d) && d.filled == filled
      invariant Shows(outcomes, d.slots)
      invariant DriveOn(rng.tape, d, window, budget - rolls) == target
      invariant rolls + UsedOn(rng.tape, d, window, budget - rolls) == allRolls
    {
      ghost var t := rng.tape;
      var accepted := RollCandidate(rng, outcomes, window, d);
      if accepted {
        filled := filled + 1;
      }
      d := StepOn(t, d, window).0;
      rolls := rolls + 1;
    }
    used := rolls;
  }

  /** The body of the driver loop: reports whether a slot was filled. */
  method RollCandidate(rng: PRNG, outcomes: seq<Outcome?>, window: ViabilityWindow, ghost d: Drive)
    returns (accepted: bool)
    requires Laid(outcomes) && WellFormed(d) && Shows(outcomes, d.slots)
    modifies rng, Objects(outcomes)
    ensures Shows(outcomes, StepOn(old(rng.tape), d, window).0.slots)
    ensures rng.tape == StepOn(old(rng.tape), d, window).1
    ensures StepOn(old(rng.tape), d, window).0.filled == d.filled + if accepted then 1 else 0
  {
    hide Generator.StarOn, AttemptOn;
    var candidate, planets := Generator.RollStar(rng);
    var n := candidate.numPlanets;
    if n < 3 || n > 9 {
      return false;
    }
    var slot := outcomes[n];
    if slot.template.Some? {
      return false;
    }
    var template, score := GenerateHomeStarTemplateAttempt(rng, n);
    accepted := slot.Record(template, score, window);
  }

  // ----- what the driver guarantees -----

  function MaxOf(s: seq<int>): (m: int) {
    if s == [] then 0
    else if s[|s| - 1] > MaxOf(s[..|s| - 1]) then s[|s| - 1] else MaxOf(s[..|s| - 1])
  }

  /** How a slot stands after the scores seen for it. */
  ghost predicate SlotFits(s: Slot, n: int, scores: seq<int>, window: ViabilityWindow) {
    && s.numPlanets == n && s.attempts == |scores| && s.bestScore == MaxOf(scores)
    && (forall i :: 0 <= i < |scores| ==> scores[i] >= 0)
    && (forall i :: 0 <= i < |scores| - 1 ==> !window.Accepts(scores[i]))
    && (s.template.None? ==> forall i :: 0 <= i < |scores| ==> !window.Accepts(scores[i]))
    && (s.template.Some? ==>
          && SoundTemplate(s.template.value, n)
          && scores != [] && scores[|scores| - 1] == s.template.value.viabilityScore
          && window.Accepts(s.template.value.viabilityScore))
  }

  function CountFilled(slots: seq<Option<Slot>>): (c: int) {
    if slots == [] then 0
    else
      var s := slots[|slots| - 1];
      CountFilled(slots[..|slots| - 1]) + if s.Some? && s.value.template.Some? then 1 else 0
  }

  function SumAttempts(slots: seq<Option<Slot>>): (c: int) {
    if slots == [] then 0
    else
      var s := slots[|slots| - 1];
      SumAttempts(slots[..|slots| - 1]) + if s.Some? then s.value.attempts else 0
  }

  lemma {:induction false} SumsUpdate(slots: seq<Option<Slot>>, n: nat, s: Slot)
    requires n < |slots| && slots[n].Some? && slots[n].value.template.None?
    ensures CountFilled(slots[n := Some(s)]) == CountFilled(slots) + if s.template.Some? then 1 else 0
    ensures SumAttempts(slots[n := Some(s)]) == SumAttempts(slots) - slots[n].value.attempts + s.attempts
  {
    var k := |slots| - 1;
    var s1 := slots[n := Some(s)];
    if n == k {
      assert s1[..k] == slots[..k];
    } else {
      assert s1[..k] == slots[..k][n := Some(s)];
      SumsUpdate(slots[..k], n, s);
    }
  }

  ghost predicate Inv(d: Drive, window: ViabilityWindow, rolls: int) {
    && WellFormed(d)
    && d.filled == CountFilled(d.slots)
    && SumAttempts(d.slots) <= rolls
    && forall n :: 3 <= n <= 9 ==> SlotFits(d.slots[n].value, n, d.log[n], window)
  }

  lemma RecordedFits(s: Slot, n: int, scores: seq<int>, window: ViabilityWindow, tpl: HomeStarTemplate)
    requires SlotFits(s, n, scores, window) && s.template.None?
    requires SoundTemplate(tpl, n)
    ensures SlotFits(Recorded(s, tpl, tpl.viabilityScore, window), n, scores + [tpl.viabilityScore], window)
  {
    hide Templates.SoundPlanet, Templates.Arranged;
    assert (scores + [tpl.viabilityScore])[..|scores|] == scores;
  }

  lemma StepKeepsInv(t: Tape, d: Drive, window: ViabilityWindow, rolls: int)
    requires Inv(d, window, rolls)
    ensures Inv(StepOn(t, d, window).0, window, rolls + 1)
  {
    hide Generator.StarOn, AttemptOn, SlotFits, SoundTemplate;
    var (star, planets, t1) := Generator.StarOn(t);
    var n := star.numPlanets;
    if n >= 3 && d.slots[n].value.template.None? {
      var (tpl, score, t2) := AttemptOn(t1, n);
      AttemptIsSound(t1, n);
      RecordedFits(d.slots[n].value, n, d.log[n], window, tpl);
      SumsUpdate(d.slots, n, Recorded(d.slots[n].value, tpl, score, window));
    }
  }

  lemma {:induction false} DriveKeepsInv(t: Tape, d: Drive, window: ViabilityWindow, rolls: int, budget: int)
    requires Inv(d, window, rolls) && budget >= 0
    ensures var d1 := DriveOn(t, d, window, budget).0;
            Inv(d1, window, rolls + UsedOn(t, d, window, budget))
    decreases budget
  {
    hide StepOn, SlotFits;
    if budget > 0 && d.filled < 7 {
      StepKeepsInv(t, d, window, rolls);
      var (d1, t1) := StepOn(t, d, window);
      DriveKeepsInv(t1, d1, window, rolls + 1, budget - 1);
    }
  }

  lemma StartInv(window: ViabilityWindow)
    ensures Inv(Start(), window, 0)
  {
    var s := Start().slots;
    NoneFilled(s);
  }

  lemma {:induction false} NoneFilled(slots: seq<Option<Slot>>)
    requires forall n :: 0 <= n < |slots| && slots[n].Some? ==>
               slots[n].value.template.None? && slots[n].value.attempts == 0
    ensures CountFilled(slots) == 0 && SumAttempts(slots) == 0
  {
    if slots != [] {
      NoneFilled(slots[..|slots| - 1]);
    }
  }

  lemma {:induction false} BestIsSeen(scores: seq<int>)
    requires scores != [] && forall i :: 0 <= i < |scores| ==> scores[i] >= 0
    ensures MaxOf(scores) in scores
  {
    var n := |scores| - 1;
    if n > 0 {
      BestIsSeen(scores[..n]);
    }
  }

  lemma {:induction false} StopsEarly(t: Tape, d: Drive, window: ViabilityWindow, budget: nat)
    requires WellFormed(d)
    ensures UsedOn(t, d, window, budget) < budget ==> DriveOn(t, d, window, budget).0.filled >= 7
    decreases budget
  {
    hide StepOn;
    if budget > 0 && d.filled < 7 {
      var (d1, t1) := StepOn(t, d, window);
      StopsEarly(t1, d1, window, budget - 1);
    }
  }

  /** The outcome of every run of stage 1: attempts are within the candidates
      rolled, and fewer than the budget are rolled only with every slot filled. */
  lemma DriverIsSound(t: Tape, window: ViabilityWindow, maxCandidateRolls: int)
    ensures var d := TemplatesOn(t, window, maxCandidateRolls).0;
            var rolls := RollsOn(t, window, maxCandidateRolls);
            && Inv(d, window, rolls)
            && (rolls < Budget(maxCandidateRolls) ==> d.filled >= 7)
            && (forall n :: 3 <= n <= 9 ==>
                  var s := d.slots[n].value;
                  s.template.None? && s.attempts > 0 ==> !window.Accepts(s.bestScore))
  {
    hide DriveOn, UsedOn, StepOn, SoundTemplate;
    StartInv(window);
    DriveKeepsInv(t, Start(), window, 0, Budget(maxCandidateRolls));
    StopsEarly(t, Start(), window, Budget(maxCandidateRolls));
    var d := TemplatesOn(t, window, maxCandidateRolls).0;
    forall n | 3 <= n <= 9 && d.slots[n].value.template.None? && d.slots[n].value.attempts > 0
      ensures !window.Accepts(d.slots[n].value.bestScore)
    {
      assert SlotFits(d.slots[n].value, n, d.log[n], window);
      BestIsSeen(d.log[n]);
      var i :| 0 <= i < |d.log[n]| && d.log[n][i] == MaxOf(d.log[n]);
    }
  }

  /** A filled slot never changes again. */
  lemma {:induction false} FilledStays(t: Tape, d: Drive, window: ViabilityWindow, budget: int, n: int)
    requires WellFormed(d) && 3 <= n <= 9 && d.slots[n].value.template.Some?
    ensures DriveOn(t, d, window, budget).0.slots[n] == d.slots[n]
    ensures DriveOn(t, d, window, budget).0.log[n] == d.log[n]
    decreases budget
  {
    hide Generator.StarOn, AttemptOn;
    if budget > 0 && d.filled < 7 {
      var (d1, t1) := StepOn(t, d, window);
      assert d1.slots[n] == d.slots[n] && d1.log[n] == d.log[n];
      FilledStays(t1, d1, window, budget - 1, n);
    }
  }

  /** If the window refuses score 0, every filled slot holds exactly one home
      planet, with gas giants only outside it. */
  lemma FilledSlotHasOneHome(t: Tape, window: ViabilityWindow, maxCandidateRolls: int, n: int)
    requires !window.Accepts(0) && 3 <= n <= 9
    ensures var s := TemplatesOn(t, window, maxCandidateRolls).0.slots[n].value;
            s.template.Some? ==>
              var ps := s.template.value.planets;
              && |ps| == n && Templates.NeverWarmer(ps) && Templates.GiantsOutside(ps)
              && exists i :: Templates.IsHome(ps, i) && forall j :: Templates.IsHome(ps, j) ==> j == i
  {
    hide TemplatesOn, Templates.SoundPlanet, Templates.NeverWarmer, Templates.GiantsOutside;
    DriverIsSound(t, window, maxCandidateRolls);
    var d := TemplatesOn(t, window, maxCandidateRolls).0;
    var s := d.slots[n].value;
    assert SlotFits(s, n, d.log[n], window);
    if s.template.Some? {
      var ps := s.template.value.planets;
      var i :| Templates.IsHome(ps, i);
      forall j | Templates.IsHome(ps, j) ensures j == i {
        HomeIsUnique(ps, i, j);
      }
    }
  }

  // ----- the driver as a history of candidates -----

  /** One candidate: its planet count, and the template attempted for it. */
  datatype Turn = Turn(planets: int, attempt: Option<HomeStarTemplate>) {
    ghost predicate Fills(n: int, window: ViabilityWindow) {
      planets == n && attempt.Some? && window.Accepts(attempt.value.viabilityScore)
    }
  }

  ghost predicate FilledBy(turns: seq<Turn>, n: int, window: ViabilityWindow) {
    exists k :: 0 <= k < |turns| && turns[k].Fills(n, window)
  }

  ghost predicate SomeEmpty(turns: seq<Turn>, window: ViabilityWindow) {
    exists n :: 3 <= n <= 9 && !FilledBy(turns, n, window)
  }

  /** Every candidate of three or more planets is attempted until one of its
      planet count has been accepted; the draws are used in that order. */
  ghost predicate Follows(turns: seq<Turn>, turn: Turn, t: Tape, t1: Tape, window: ViabilityWindow) {
    var (star, _, rest) := Generator.StarOn(t);
    var n := star.numPlanets;
    && turn.planets == n
    && if n >= 3 && !FilledBy(turns, n, window)
       then turn.attempt == Some(AttemptOn(rest, n).0) && t1 == AttemptOn(rest, n).2
       else turn.attempt.None? && t1 == rest
  }

  /** The tapes lie before, between and behind the turns; none is taken once
      seven slots are filled. */
  ghost predicate Told(turns: seq<Turn>, tapes: seq<Tape>, window: ViabilityWindow) {
    && |tapes| == |turns| + 1
    && forall k :: 0 <= k < |turns| ==>
         Follows(turns[..k], turns[k], tapes[k], tapes[k + 1], window) && SomeEmpty(turns[..k], window)
  }

  /** The candidates with n planets. */
  function Seen(turns: seq<Turn>, n: int): (c: nat) {
    if turns == [] then 0 else Seen(turns[..|turns| - 1], n) + if turns[|turns| - 1].planets == n then 1 else 0
  }

  /** Turn k is the first one accepted for n planets. */
  ghost predicate FirstFill(turns: seq<Turn>, k: int, n: int, window: ViabilityWindow) {
    0 <= k < |turns| && turns[k].Fills(n, window) && !FilledBy(turns[..k], n, window)
  }

  /** A slot after a history: an empty one counts every candidate with its
      planet count, a filled one those up to the first accepted, which it holds;
      the best score is the highest attempted. */
  ghost predicate Shown(s: Slot, turns: seq<Turn>, n: int, window: ViabilityWindow) {
    && s.numPlanets == n
    && (s.template.None? ==> s.attempts == Seen(turns, n) && !FilledBy(turns, n, window))
    && (s.template.Some? ==> exists k ::
          FirstFill(turns, k, n, window) && turns[k].attempt == s.template && s.attempts == Seen(turns[..k + 1], n))
    && (forall k :: 0 <= k < |turns| && turns[k].planets == n && turns[k].attempt.Some? ==>
          turns[k].attempt.value.viabilityScore <= s.bestScore)
    && (s.bestScore == 0
        || (exists k :: 0 <= k < |turns| && turns[k].planets == n && turns[k].attempt.Some?
              && turns[k].attempt.value.viabilityScore == s.bestScore))
  }

  ghost predicate AllShown(d: Drive, turns: seq<Turn>, window: ViabilityWindow)
    requires WellFormed(d)
  {
    forall n :: 3 <= n <= 9 ==> Shown(d.slots[n].value, turns, n, window)
  }

  lemma FilledByMore(turns: seq<Turn>, turn: Turn, n: int, window: ViabilityWindow)
    ensures FilledBy(turns + [turn], n, window) <==> FilledBy(turns, n, window) || turn.Fills(n, window)
  {
    var all := turns + [turn];
    if FilledBy(turns, n, window) {
      var k :| 0 <= k < |turns| && turns[k].Fills(n, window);
      assert all[k].Fills(n, window);
    }
    if turn.Fills(n, window) {
      assert all[|turns|].Fills(n, window);
    }
  }

  lemma SeenMore(turns: seq<Turn>, turn: Turn, n: int)
    ensures Seen(turns + [turn], n) == Seen(turns, n) + if turn.planets == n then 1 else 0
  {
    assert (turns + [turn])[..|turns|] == turns;
  }

  /** A filled slot holds the first accepted attempt, so it counts as filled. */
  lemma ShownFilled(s: Slot, turns: seq<Turn>, n: int, window: ViabilityWindow)
    requires Shown(s, turns, n, window)
    ensures s.template.Some? <==> FilledBy(turns, n, window)
  {
  }

  /** A turn that attempts nothing for n leaves its slot as it was. */
  lemma ShownStays(s: Slot, turns: seq<Turn>, turn: Turn, n: int, window: ViabilityWindow)
    requires Shown(s, turns, n, window)
    requires turn.planets != n || (turn.attempt.None? && s.template.Some?)
    ensures Shown(s, turns + [turn], n, window)
  {
    var all := turns + [turn];
    FilledByMore(turns, turn, n, window);
    SeenMore(turns, turn, n);
    assert forall k :: 0 <= k < |turns| ==> all[k] == turns[k] && all[..k] == turns[..k];
    if s.template.Some? {
      var k :| FirstFill(turns, k, n, window) && turns[k].attempt == s.template && s.attempts == Seen(turns[..k + 1], n);
      assert all[..k + 1] == turns[..k + 1];
      assert FirstFill(all, k, n, window);
    }
  }

  lemma ShownRecords(s: Slot, turns: seq<Turn>, tpl: HomeStarTemplate, n: int, window: ViabilityWindow)
    requires Shown(s, turns, n, window) && s.template.None?
    ensures Shown(Recorded(s, tpl, tpl.viabilityScore, window), turns + [Turn(n, Some(tpl))], n, window)
  {
    var turn := Turn(n, Some(tpl));
    var all := turns + [turn];
    FilledByMore(turns, turn, n, window);
    SeenMore(turns, turn, n);
    assert forall k :: 0 <= k < |turns| ==> all[k] == turns[k];
    var k := |turns|;
    assert all[..k] == turns && all[..k + 1] == all && all[k] == turn;
    if window.Accepts(tpl.viabilityScore) {
      assert FirstFill(all, k, n, window);
    }
  }

  /** One step of the driver is one turn of the history. */
  lemma StepTells(t: Tape, d: Drive, window: ViabilityWindow, turns: seq<Turn>) returns (turn: Turn)
    requires WellFormed(d) && AllShown(d, turns, window)
    ensures var (d1, t1) := StepOn(t, d, window);
            AllShown(d1, turns + [turn], window) && Follows(turns, turn, t, t1, window)
  {
    hide Generator.StarOn, AttemptOn, Shown;
    var (star, _, rest) := Generator.StarOn(t);
    var n := star.numPlanets;
    if n >= 3 {
      ShownFilled(d.slots[n].value, turns, n, window);
    }
    var tries := n >= 3 && d.slots[n].value.template.None?;
    turn := Turn(n, if tries then Some(AttemptOn(rest, n).0) else None);
    forall m | 3 <= m <= 9 ensures Shown(StepOn(t, d, window).0.slots[m].value, turns + [turn], m, window) {
      if tries && m == n {
        AttemptScores(rest, n);
        ShownRecords(d.slots[n].value, turns, AttemptOn(rest, n).0, n, window);
      } else {
        ShownStays(d.slots[m].value, turns, turn, m, window);
      }
    }
  }

  lemma AttemptScores(t: Tape, n: int)
    requires 1 <= n <= 9
    ensures AttemptOn(t, n).1 == AttemptOn(t, n).0.viabilityScore
  {
    hide Templates.PlanetsOn, Score;
  }

  /** Of the first m slots all from 3 on are filled, when m - 3 are. */
  lemma {:induction false} CountFilledAll(slots: seq<Option<Slot>>, m: int)
    requires Shaped(slots) && 3 <= m <= 10
    ensures CountFilled(slots[..m]) <= m - 3
    ensures CountFilled(slots[..m]) == m - 3 <==> forall n :: 3 <= n < m ==> slots[n].value.template.Some?
    decreases m
  {
    if m == 3 {
      NoneFilled(slots[..m]);
    } else {
      assert slots[..m][..m - 1] == slots[..m - 1];
      CountFilledAll(slots, m - 1);
    }
  }

  /** Seven are filled exactly when no slot is empty. */
  lemma SevenAreAll(d: Drive, turns: seq<Turn>, window: ViabilityWindow)
    requires WellFormed(d) && AllShown(d, turns, window) && d.filled == CountFilled(d.slots)
    ensures d.filled >= 7 <==> !SomeEmpty(turns, window)
  {
    hide Shown, FilledBy;
    assert d.slots[..10] == d.slots;
    CountFilledAll(d.slots, 10);
    forall n | 3 <= n <= 9 ensures d.slots[n].value.template.Some? <==> FilledBy(turns, n, window) {
      ShownFilled(d.slots[n].value, turns, n, window);
    }
  }

  lemma ToldMore(turns: seq<Turn>, tapes: seq<Tape>, turn: Turn, t1: Tape, window: ViabilityWindow)
    requires Told(turns, tapes, window) && Follows(turns, turn, tapes[|turns|], t1, window)
    requires SomeEmpty(turns, window)
    ensures Told(turns + [turn], tapes + [t1], window)
  {
    hide Follows, SomeEmpty;
    var all, more := turns + [turn], tapes + [t1];
    forall k | 0 <= k < |all|
      ensures Follows(all[..k], all[k], more[k], more[k + 1], window) && SomeEmpty(all[..k], window)
    {
      assert all[..k] == turns[..k];
      if k == |turns| {
        assert all[..k] == turns && more[k] == tapes[k] && more[k + 1] == t1;
      } else {
        assert all[k] == turns[k] && more[k] == tapes[k] && more[k + 1] == tapes[k + 1];
      }
    }
  }

  lemma {:induction false} DriveTells(t: Tape, d: Drive, window: ViabilityWindow, budget: int, rolls: int,
                                      turns: seq<Turn>, tapes: seq<Tape>)
    returns (turns1: seq<Turn>, tapes1: seq<Tape>)
    requires Inv(d, window, rolls) && AllShown(d, turns, window)
    requires Told(turns, tapes, window) && tapes[|turns|] == t
    ensures var (d1, t1) := DriveOn(t, d, window, budget);
            && AllShown(d1, turns1, window) && Told(turns1, tapes1, window)
            && turns <= turns1 && tapes <= tapes1 && tapes1[|turns1|] == t1
            && |turns1| == |turns| + UsedOn(t, d, window, budget)
            && (UsedOn(t, d, window, budget) < budget ==> !SomeEmpty(turns1, window))
    decreases budget
  {
    hide StepOn, AllShown, Told, SlotFits, SomeEmpty, Follows, CountFilled, SumAttempts;
    ToldLengths(turns, tapes, window);
    SevenAreAll(d, turns, window);
    if budget <= 0 || d.filled >= 7 {
      turns1, tapes1 := turns, tapes;
    } else {
      var (d1, t1) := StepOn(t, d, window);
      var turn := StepTells(t, d, window, turns);
      ToldMore(turns, tapes, turn, t1, window);
      ToldLengths(turns + [turn], tapes + [t1], window);
      StepKeepsInv(t, d, window, rolls);
      turns1, tapes1 := DriveTells(t1, d1, window, budget - 1, rolls + 1, turns + [turn], tapes + [t1]);
    }
  }

  lemma ToldLengths(turns: seq<Turn>, tapes: seq<Tape>, window: ViabilityWindow)
    requires Told(turns, tapes, window)
    ensures |tapes| == |turns| + 1
  {
  }

  /** Every run of the driver is a history: each candidate of three to nine
      planets is attempted until its slot is filled, slots hold what the history
      says, and it ends with the budget or with seven slots filled, not before
      and not after. */
  lemma DriverTellsHistory(t: Tape, window: ViabilityWindow, maxCandidateRolls: int)
    ensures var (d, rest) := TemplatesOn(t, window, maxCandidateRolls);
            exists turns, tapes ::
              && Told(turns, tapes, window) && tapes[0] == t && tapes[|turns|] == rest
              && AllShown(d, turns, window)
              && |turns| == RollsOn(t, window, maxCandidateRolls)
              && (|turns| < Budget(maxCandidateRolls) ==> !SomeEmpty(turns, window))
  {
    hide DriveOn, UsedOn, StepOn;
    StartInv(window);
    var turns, tapes := DriveTells(t, Start(), window, Budget(maxCandidateRolls), 0, [], [t]);
    ToldLengths(turns, tapes, window);
  }
}
