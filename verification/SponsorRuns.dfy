/** Sponsorship over runs: the paymaster's settings are always the root's latest, a pause stops every
    reimbursement until it is lifted, and only the relayer last set is ever reimbursed. */
module SponsorRuns {
  import opened Runtime
  import opened State
  import opened Bank
  import opened Machine
  import opened MoneyRuns
  import opened Acceptance

  /** `s` is accepted and says whether sponsorship is paused. */
  predicate SetsPause(w: World, s: Step) {
    s.SetPaymaster? && s.paused.Some? && Attempt(w, s).Ok?
  }

  predicate SetsRelayer(w: World, s: Step) {
    s.SetPaymaster? && s.newRelayer.Some? && Attempt(w, s).Ok?
  }

  // ----- The settings are the latest accepted -----

  /** What the last accepted pause or unpause of the run said. */
  function LatestPause(w: World, steps: seq<Step>): bool
    requires w.paymaster.Some?
  {
    if steps == [] then w.paymaster.value.paused else
    var earlier, last := steps[..|steps| - 1], steps[|steps| - 1];
    if SetsPause(Run(w, earlier), last) then last.paused.value else LatestPause(w, earlier)
  }

  function LatestRelayer(w: World, steps: seq<Step>): Key
    requires w.paymaster.Some?
  {
    if steps == [] then w.paymaster.value.relayer else
    var earlier, last := steps[..|steps| - 1], steps[|steps| - 1];
    if SetsRelayer(Run(w, earlier), last) then last.newRelayer.value else LatestRelayer(w, earlier)
  }

  lemma SettingsStep(w: World, s: Step)
    requires w.paymaster.Some?
    ensures Next(w, s).paymaster == Some(Paymaster(
      if SetsRelayer(w, s) then s.newRelayer.value else w.paymaster.value.relayer,
      if SetsPause(w, s) then s.paused.value else w.paymaster.value.paused))
  {
    if s.SetPaymaster? {
      SetPaymasterAcceptedIff(w, s.caller, s.newRelayer, s.paused);
    } else {
      Frame(w, s);
    }
  }

  lemma RunLast(w: World, steps: seq<Step>)
    requires steps != []
    ensures Run(w, steps) == Next(Run(w, steps[..|steps| - 1]), steps[|steps| - 1])
  {
    var earlier, last := steps[..|steps| - 1], steps[|steps| - 1];
    assert steps == earlier + [last] && [last][1..] == [];
    RunConcat(w, earlier, [last]);
    assert Run(Run(w, earlier), [last]) == Run(Next(Run(w, earlier), last), []);
  }

  /** After any run an open paymaster holds the relayer and the flag its root last set, whatever
      anyone else attempted. */
  lemma {:induction false} SettingsAreLatest(w: World, steps: seq<Step>)
    requires w.paymaster.Some?
    ensures Run(w, steps).paymaster == Some(Paymaster(LatestRelayer(w, steps), LatestPause(w, steps)))
  {
    if steps != [] {
      SettingsAreLatest(w, steps[..|steps| - 1]);
      RunLast(w, steps);
      SettingsStep(Run(w, steps[..|steps| - 1]), steps[|steps| - 1]);
    }
  }

  // ----- Pause -----

  predicate Paused(w: World) {
    w.paymaster.Some? && w.paymaster.value.paused
  }

  /** No accepted step of the run lifts the pause. */
  ghost predicate NeverUnpaused(w: World, steps: seq<Step>)
    decreases |steps|
  {
    steps != [] ==>
      && !(SetsPause(w, steps[0]) && !steps[0].paused.value)
      && NeverUnpaused(Next(w, steps[0]), steps[1..])
  }

  lemma PausedStep(w: World, s: Step)
    requires Paused(w) && !(SetsPause(w, s) && !s.paused.value)
    ensures Paused(Next(w, s)) && (Sponsored(s) ==> Attempt(w, s).Err?)
  {
    SettingsStep(w, s);
    if Sponsored(s) && Attempt(w, s).Ok? { SponsoredOnTerms(w, s); }
  }

  lemma {:induction false} NothingWhilePaused(w: World, steps: seq<Step>)
    requires Paused(w) && NeverUnpaused(w, steps)
    ensures Paused(Run(w, steps)) && Drained(w, steps).intents == Drained(w, steps).reimbursed == 0
    decreases |steps|
  {
    if steps != [] {
      PausedStep(w, steps[0]);
      NothingWhilePaused(Next(w, steps[0]), steps[1..]);
    }
  }

  /** After an accepted pause no sponsored intent is accepted, and nothing but the root's own
      withdrawals leaves the paymaster, until an accepted unpause. */
  lemma PauseStopsSponsorship(w: World, caller: Signer, relayer: Option<Key>, steps: seq<Step>)
    requires var pause := SetPaymaster(caller, relayer, Some(true));
      Attempt(w, pause).Ok? && NeverUnpaused(Next(w, pause), steps)
    ensures var w' := Next(w, SetPaymaster(caller, relayer, Some(true)));
      && caller == w.root && Drained(w', steps).intents == 0
      && Run(w', steps).Balance(w.PaymasterKey()) + Drained(w', steps).withdrawn >= w'.Balance(w.PaymasterKey())
      && forall s: Step :: Sponsored(s) ==> Attempt(Run(w', steps), s).Err?
  {
    var w' := Next(w, SetPaymaster(caller, relayer, Some(true)));
    SetPaymasterAcceptedIff(w, caller, relayer, Some(true));
    NothingWhilePaused(w', steps);
    SponsorDrainBound(w', steps);
    forall s: Step | Sponsored(s) ensures Attempt(Run(w', steps), s).Err? {
      if Attempt(Run(w', steps), s).Ok? { SponsoredOnTerms(Run(w', steps), s); }
    }
  }

  /** An accepted unpause puts sponsorship back exactly as it was before the pause, with the relayer
      set then or since. */
  lemma UnpauseRestores(w: World, caller: Signer, steps: seq<Step>)
    requires w.paymaster.Some? && Attempt(Run(w, steps), SetPaymaster(caller, None, Some(false))).Ok?
    ensures Next(Run(w, steps), SetPaymaster(caller, None, Some(false))).paymaster
         == Some(Paymaster(LatestRelayer(w, steps), false))
  {
    SettingsAreLatest(w, steps);
    SettingsStep(Run(w, steps), SetPaymaster(caller, None, Some(false)));
  }

  // ----- The relayer -----

  ghost predicate RelayerKept(w: World, steps: seq<Step>)
    decreases |steps|
  {
    steps != [] ==> !SetsRelayer(w, steps[0]) && RelayerKept(Next(w, steps[0]), steps[1..])
  }

  /** Every reimbursement of the run goes to `key`. */
  ghost predicate OnlyReimburses(w: World, steps: seq<Step>, key: Key)
    decreases |steps|
  {
    steps != [] ==>
      && (Sponsored(steps[0]) && Attempt(w, steps[0]).Ok? ==> steps[0].sp.feePayer == Some(key))
      && OnlyReimburses(Next(w, steps[0]), steps[1..], key)
  }

  lemma {:induction false} RelayerReimbursed(w: World, steps: seq<Step>)
    requires w.paymaster.Some? && RelayerKept(w, steps)
    ensures OnlyReimburses(w, steps, w.paymaster.value.relayer)
    decreases |steps|
  {
    if steps != [] {
      SettingsStep(w, steps[0]);
      RelayerReimbursed(Next(w, steps[0]), steps[1..]);
      if Sponsored(steps[0]) && Attempt(w, steps[0]).Ok? { SponsoredOnTerms(w, steps[0]); }
    }
  }

  /** An accepted change of relayer makes that key, at once and until the next accepted change, the
      only one reimbursed. */
  lemma RelayerTakesOver(w: World, caller: Signer, key: Key, paused: Option<bool>, steps: seq<Step>)
    requires var change := SetPaymaster(caller, Some(key), paused);
      Attempt(w, change).Ok? && RelayerKept(Next(w, change), steps)
    ensures OnlyReimburses(Next(w, SetPaymaster(caller, Some(key), paused)), steps, key)
  {
    SetPaymasterAcceptedIff(w, caller, Some(key), paused);
    RelayerReimbursed(Next(w, SetPaymaster(caller, Some(key), paused)), steps);
  }
}
