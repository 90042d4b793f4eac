/**
 The staged workflow: a master stream split once per stage, so that a stage's
 inputs shift no other stage's output, whichever order the stages run in.
 */
module Stages {
  import opened Clusters
  import opened Driver
  import opened Hexes
  import opened Options
  import opened Placement
  import opened Prng
  import Deposits

  /** The streams of the three stages: templates, cluster, deposits. */
  datatype Streams = Streams(templates: Tape, cluster: Tape, deposits: Tape)

  function StreamsOn(gen: Source, t: Tape): (s: Streams) {
    var (a, t1) := SplitOn(gen, t);
    var (b, t2) := SplitOn(gen, t1);
    var (c, t3) := SplitOn(gen, t2);
    Streams(a, b, c)
  }

  /** A finished run: what each stage produced. */
  datatype World = World(
    layout: Layout,
    placementError: Option<PlacementError>,
    deposits: seq<Deposits.Deposit>,
    templates: seq<Option<Slot>>
  )

  /** Each stage applied to its own stream. */
  ghost function WorldOn(gen: Source, t: Tape, opts: ClusterOptions, window: ViabilityWindow, rolls: int): (w: World) {
    var s := StreamsOn(gen, t);
    var (layout, placed, _) := ClusterOn(gen, s.cluster, opts);
    World(
      layout,
      placed.error,
      Deposits.DepositsOn(s.deposits, layout.planets).0,
      TemplatesOn(s.templates, window, rolls).0.slots)
  }

  ghost predicate Shown(cluster: Cluster, err: Option<PlacementError>, w: World)
    reads cluster, cluster.homeStarTemplates,
          if cluster.homeStarTemplates == null then {} else Objects(cluster.homeStarTemplates[..])
  {
    && cluster.View() == w.layout && err == w.placementError
    && cluster.deposits == w.deposits
    && cluster.homeStarTemplates != null && Shows(cluster.homeStarTemplates[..], w.templates)
  }

  method GenerateDeposits(rng: PRNG, cluster: Cluster)
    modifies rng, cluster
    ensures cluster.View() == old(cluster.View()) && cluster.homeStarTemplates == old(cluster.homeStarTemplates)
    ensures cluster.deposits == old(cluster.deposits) + Deposits.DepositsOn(old(rng.tape), cluster.planets).0
  {
    var ds := Deposits.RollDeposits(rng, cluster.planets);
    cluster.deposits := cluster.deposits + ds;
  }

  /** The end both workflows share. */
  method Attach(rng: PRNG, cluster: Cluster, templates: array<Outcome?>)
    requires cluster.deposits == []
    modifies rng, cluster
    ensures cluster.View() == old(cluster.View()) && cluster.homeStarTemplates == templates
    ensures cluster.deposits == Deposits.DepositsOn(old(rng.tape), cluster.planets).0
  {
    hide Deposits.DepositsOn;
    cluster.homeStarTemplates := templates;
    GenerateDeposits(rng, cluster);
  }

  /** Cluster first, then templates, then deposits. */
  method Generate(master: PRNG, opts: ClusterOptions, window: ViabilityWindow, maxCandidateRolls: int)
    returns (cluster: Cluster, err: Option<PlacementError>)
    modifies master
    ensures Shown(cluster, err, WorldOn(master.gen, old(master.tape), opts, window, maxCandidateRolls))
  {
    hide ClusterOn, TemplatesOn, RollsOn, Shows, Laid, DrawOn, Deposits.DepositsOn;
    var rngTemplates := master.Split();
    var rngCluster := master.Split();
    var rngDeposits := master.Split();
    cluster, err := GenerateCluster(rngCluster, opts);
    var templates, used := GenerateHomeStarTemplates(rngTemplates, window, maxCandidateRolls);
    Attach(rngDeposits, cluster, templates);
  }

  /** Templates first, then the cluster, then deposits, with default stage-1
      settings: the interactive workflow. */
  method RunSimulate(gen: Source, seed1: nat, seed2: nat, opts: ClusterOptions)
    returns (cluster: Cluster, err: Option<PlacementError>)
    ensures Shown(cluster, err, WorldOn(gen, gen(seed1, seed2), opts, DEFAULT_WINDOW, DEFAULT_ROLLS))
  {
    hide ClusterOn, TemplatesOn, RollsOn, Shows, Laid, DrawOn, Deposits.DepositsOn;
    var rng := new PRNG.NewFromSeed(gen, seed1, seed2);
    var rngTemplates := rng.Split();
    var rngCluster := rng.Split();
    var rngDeposits := rng.Split();
    var templates, used := GenerateHomeStarTemplates(rngTemplates, DEFAULT_WINDOW, DEFAULT_ROLLS);
    cluster, err := GenerateCluster(rngCluster, opts);
    Attach(rngDeposits, cluster, templates);
  }

  /** Both workflows on the same seeds and options end with the same world. */
  method OrderDoesNotShow(gen: Source, seed1: nat, seed2: nat, opts: ClusterOptions)
    returns (a: Cluster, errA: Option<PlacementError>, b: Cluster, errB: Option<PlacementError>)
    ensures a.View() == b.View() && a.deposits == b.deposits && errA == errB
    ensures exists slots :: a.homeStarTemplates != null && b.homeStarTemplates != null
              && Shows(a.homeStarTemplates[..], slots) && Shows(b.homeStarTemplates[..], slots)
  {
    hide WorldOn;
    var master := new PRNG.NewFromSeed(gen, seed1, seed2);
    a, errA := Generate(master, opts, DEFAULT_WINDOW, DEFAULT_ROLLS);
    b, errB := RunSimulate(gen, seed1, seed2, opts);
  }

  /** The streams of the stages are those of the first three seed pairs drawn;
      a cluster's two streams are those of the first two pairs of its own. */
  lemma StreamsByDraws(gen: Source, a: nat, b: nat, c: nat, d: nat, e: nat, f: nat, rest: Tape)
    ensures StreamsOn(gen, Draws(a, b, Draws(c, d, Draws(e, f, rest)))) == Streams(gen(a, b), gen(c, d), gen(e, f))
  {
    SplitByDraws(gen, a, b, Draws(c, d, Draws(e, f, rest)));
    SplitByDraws(gen, c, d, Draws(e, f, rest));
    SplitByDraws(gen, e, f, rest);
  }

  function Draws(a: nat, b: nat, rest: Tape): (t: Tape) {
    [a] + ([b] + rest)
  }

  lemma SplitByDraws(gen: Source, a: nat, b: nat, rest: Tape)
    ensures SplitOn(gen, Draws(a, b, rest)) == (gen(a, b), rest)
  {
    assert Draws(a, b, rest)[1..] == [b] + rest && ([b] + rest)[1..] == rest;
  }

  /** Stage-1 settings change the templates and nothing else; cluster options
      leave the templates alone. */
  lemma StagesAreIndependent(gen: Source, t: Tape, o1: ClusterOptions, o2: ClusterOptions,
                             w1: ViabilityWindow, w2: ViabilityWindow, r1: int, r2: int)
    ensures var a, b := WorldOn(gen, t, o1, w1, r1), WorldOn(gen, t, o1, w2, r2);
            a.layout == b.layout && a.placementError == b.placementError && a.deposits == b.deposits
    ensures WorldOn(gen, t, o1, w1, r1).templates == WorldOn(gen, t, o2, w1, r1).templates
  {
    hide ClusterOn, TemplatesOn, Deposits.DepositsOn;
  }

  /** Every world: an integral cluster of hexes that keep their distance, slots
      that fit some scores, and deposits whose identifiers decode. */
  lemma WorldIsSound(gen: Source, t: Tape, opts: ClusterOptions, window: ViabilityWindow, rolls: int)
    ensures var w := WorldOn(gen, t, opts, window, rolls);
            && Integral(w.layout)
            && (forall i, j :: 0 <= i < j < |w.layout.systems| ==>
                  w.layout.systems[i].hex.Distance(w.layout.systems[j].hex) > opts.minimumDistance)
            && (exists log, filled ::
                  Inv(Drive(w.templates, filled, log), window, RollsOn(StreamsOn(gen, t).templates, window, rolls)))
            && Deposits.IncreasingIds(w.deposits)
            && (forall k :: 0 <= k < |w.deposits| ==> Deposits.Decodes(w.deposits[k]))
            && |w.layout.planets| <= |w.deposits| <= 40 * |w.layout.planets|
  {
    hide TemplatesOn, RollsOn, Deposits.DepositsOn, Deposits.Decodes, OwnsBlock, SoundBlock, Inv, PlaceOn, AddSystemsOn;
    var s := StreamsOn(gen, t);
    var (layout, placed, _) := ClusterOn(gen, s.cluster, opts);
    var placementTape := SplitOn(gen, s.cluster).0;
    PlacementsKeepDistance(placementTape, opts.radius, opts.numSystems, opts.minimumDistance, opts.merge);
    assert placed == PlaceOn(placementTape, opts.radius, opts.numSystems, opts.minimumDistance, opts.merge).0;
    var d := TemplatesOn(s.templates, window, rolls).0;
    DriverIsSound(s.templates, window, rolls);
    assert Inv(Drive(d.slots, d.filled, d.log), window, RollsOn(s.templates, window, rolls));
    ClusterIsIntegral(gen, s.cluster, opts);
    Deposits.DepositIdsDecode(s.deposits, ClusterOn(gen, s.cluster, opts).0.planets);
  }
}
