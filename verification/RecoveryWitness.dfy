/** A run of the recovery protocol that reaches the release of the source lifetime, so that
    the safety results speak of something; it is also the run in which a listing that
    repeats a Pod lets the release happen although one watched Pod was never checked. */
module RecoveryWitness {
  import opened Basics
  import T = RecoveryTermination
  import opened RecoveryProtocol

  const CLUSTER := Cluster("cluster", "op")
  const WANTED := Wanted(Placement("cluster", "op", ""), Targets(true, ""))
  const CREATED := Create(FreshRecord(WANTED, 0), 0)

  /** One process creates the record. */
  lemma RecordCreated() returns (run: seq<State>, s: State)
    ensures IsRun(run) && run[|run| - 1] == s
    ensures s.history == [CREATED.record] && s.observers == [] && s.applied == {CREATED}
    ensures s.processes == map[0 := Process(Creating(CLUSTER, WANTED, CREATED), map[], Resting)]
  {
    s := State([], [], {}, {}, map[], {}, [], {}, []);
    run := [s];
    run, s := Go(run, Managing(StartProcess(0)));
    run, s := Go(run, Calling(EnsureCreate(0, CLUSTER, WANTED)));
    run, s := Go(run, Managing(Deliver(CREATED)));
  }

  /** It starts its observer. */
  lemma ObserverStarted() returns (run: seq<State>, s: State)
    ensures IsRun(run) && run[|run| - 1] == s
    ensures s.history == [CREATED.record] && s.observers == [Observer(0, CLUSTER, Watching([], map[]))]
    ensures 0 in s.processes
  {
    run, s := RecordCreated();
    run, s := Go(run, Calling(EnsureCreated(0)));
    run, s := Go(run, Calling(EnsureObserve(0)));
  }

  function Sighting(uid: string): Event {
    PodEvent("op", false, uid, "1")
  }

  /** Three Pods appear on the watch. */
  lemma PodsWatched() returns (run: seq<State>, s: State)
    ensures IsRun(run) && run[|run| - 1] == s
    ensures s.history == [CREATED.record] && 0 in s.processes
    ensures |s.observers| == 1 && s.observers[0].pid == 0 && s.observers[0].cluster == CLUSTER
    ensures s.observers[0].stage.Watching? && s.observers[0].stage.pods == T.ExampleWatch()
  {
    run, s := ObserverStarted();
    run, s := Go(run, Observing(Watch(0, Sighting("won"))));
    run, s := Go(run, Observing(Watch(0, Sighting("retry"))));
    run, s := Go(run, Observing(Watch(0, Sighting("lost"))));
    assert s.observers[0].stage.pods == T.ExampleWatch();
  }

  /** The listing shows one of them twice and another not at all, and is certified. */
  lemma ListingCertified() returns (run: seq<State>, s: State)
    ensures IsRun(run) && run[|run| - 1] == s
    ensures s.history == [CREATED.record] && 0 in s.processes
    ensures |s.observers| == 1 && s.observers[0].pid == 0 && s.observers[0].cluster == CLUSTER
    ensures s.observers[0].stage.Certifying?
    ensures var c := s.observers[0].stage.certificate;
            c.job == "job" && c.pods != [] && "lost" in c.reported && "lost" !in c.pods
  {
    run, s := PodsWatched();
    T.RepeatedListingCertifiesTooMuch();
    T.ExampleCertifiedJob();
    run, s := Go(run, Observing(Check(0, [T.ExampleJob()], T.ExampleListing())));
  }

  /** The completed record is written and acknowledged. */
  lemma CompletionWritten() returns (run: seq<State>, s: State)
    ensures IsRun(run) && run[|run| - 1] == s
    ensures |s.observers| == 1 && s.observers[0].pid == 0 && s.observers[0].cluster == CLUSTER && 0 in s.processes
    ensures s.observers[0].stage == Releasing && |s.history| == 2
    ensures s.history[1].phase == Completed && s.history[1].job == "job" && s.history[1].pods != [] && !s.history[1].released
    ensures OperationFrom(s.history[1], CLUSTER) && "lost" !in s.history[1].pods
  {
    run, s := ListingCertified();
    run, s := Go(run, Observing(Complete(0)));
    var w := s.observers[0].stage.write;
    run, s := Go(run, Managing(Deliver(w)));
    run, s := Go(run, Observing(CompleteAcknowledged(0)));
  }

  /** MAIN: release is reachable; and if a listing may repeat a Pod, it is reachable with a
      watched Pod missing from the certified ones. */
  lemma ReleaseIsReachable() returns (run: seq<State>, s: State)
    ensures IsRun(run) && run[|run| - 1] == s && s.log != [] && s.log[|s.log| - 1].Released?
    ensures Durable(s).Some? && Durable(s).value.phase == Completed && "lost" !in Durable(s).value.pods
  {
    run, s := CompletionWritten();
    run, s := Go(run, Freeing(ReleaseRead(0)));
    run, s := Go(run, Freeing(ReleaseCall(0, true)));
  }
}
