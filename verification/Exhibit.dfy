/** The table exhibit of rccar_exhibit.c: twenty timed phases that run while nothing is connected. */
module Exhibit {
  datatype Phase =
    | Start | TurretA | LaserArm | LaserGap | LaserHold
    | HeadlightDelay | HeadlightOn | AfterHeadlight
    | TurretRev | HeadlightDelay2 | HeadlightOn2 | AfterHeadlight2
    | TurretB | GatlingArm | GatlingGap | AfterGatling
    | Mist | AfterMist | Sfx | AfterSfx

  /** The last command of each output, and how often laser and gun sound went off since begin. */
  datatype Outputs = Outputs(headlight: bool, mist: bool, radar: bool, turret: int, wheelsStopped: bool,
                             shots: nat, sounds: nat, bursts: nat)

  datatype Lap = Lap(start: int, end: int, track: nat)

  /** Since begin: the turret turns, the laps, where the current lap started and which track it plays. */
  datatype History = History(turns: seq<int>, laps: seq<Lap>, lapStart: int, track: nat)

  /** The statics, the outputs they drive and the history. */
  datatype State = State(active: bool, phase: Phase, until: int, turretCmd: int, turretSign: int,
                         gunPending: bool, gunDue: int, out: Outputs, past: History)

  const TURRET_SPEED := 384
  const TURRET_MS := 2000
  const ARM_MS := 1000
  const LASER_SOUND_MS := 200
  const AFTER_LASER_MS := 3000
  const HEADLIGHT_DELAY_MS := 1000
  const HEADLIGHT_MS := 3000
  const AFTER_HEADLIGHT_MS := 1000
  const AFTER_GATLING_MS := 3000
  const MIST_MS := 2000
  const AFTER_MIST_MS := 3000
  const AFTER_SFX_MS := 2000

  const GUN_MS := 1907

  /** Length in ms of the four tracks a lap can end with. */
  function TrackMs(track: nat): nat {
    match track case 0 => 18155 case 1 => 7080 case 2 => 37512 case _ => 33960
  }

  // The helpers.

  function Enter(e: State, phase: Phase, now: int, duration: nat): State {
    e.(phase := phase, until := now + duration)
  }

  function StartHeadlight(e: State, now: int, phase: Phase): State {
    Enter(e.(out := e.out.(headlight := true)), phase, now, HEADLIGHT_MS)
  }

  function StopHeadlight(e: State, now: int, phase: Phase): State {
    Enter(e.(out := e.out.(headlight := false)), phase, now, AFTER_HEADLIGHT_MS)
  }

  function StartTurret(e: State, now: int, phase: Phase): State {
    var cmd := e.turretSign * TURRET_SPEED;
    Enter(e.(turretCmd := cmd, turretSign := -e.turretSign, out := e.out.(turret := cmd),
             past := e.past.(turns := e.past.turns + [cmd])), phase, now, TURRET_MS)
  }

  /** The first turret turn of a lap; after the first lap it closes the one before. */
  function StartLap(e: State, now: int): State {
    var laps := if e.phase.Start? then e.past.laps else e.past.laps + [Lap(e.past.lapStart, now, e.past.track)];
    StartTurret(e.(past := e.past.(laps := laps, lapStart := now)), now, TurretA)
  }

  function ArmLaserShot(e: State, now: int): State {
    e.(out := e.out.(shots := e.out.shots + 1), gunPending := true, gunDue := now + LASER_SOUND_MS)
  }

  function PlayGun(e: State): State {
    e.(out := e.out.(sounds := e.out.sounds + 1), gunPending := false)
  }

  function FireGatlingOnce(e: State): State {
    e.(out := e.out.(bursts := e.out.bursts + 1))
  }

  function PlayCycleSfx(e: State, now: int, random: nat): State {
    var track := random % 4;
    Enter(e.(out := e.out.(radar := true), past := e.past.(track := track)), Sfx, now, TrackMs(track))
  }

  // begin, abort and tick.

  function Begin(e: State): State {
    State(true, Start, 0, 0, 1, false, 0, e.out.(headlight := false, shots := 0, sounds := 0, bursts := 0),
          History([], [], 0, 0))
  }

  function Abort(e: State): State {
    if !e.active then e
    else e.(active := false, phase := Start, turretCmd := 0, gunPending := false,
            out := e.out.(turret := 0, headlight := false, radar := false, mist := false, wheelsStopped := true))
  }

  predicate TurretPhase(p: Phase) { p.TurretA? || p.TurretRev? || p.TurretB? }

  predicate HeadlightPhase(p: Phase) { p.HeadlightOn? || p.HeadlightOn2? }

  predicate GunPhase(p: Phase) { p.LaserGap? || p.LaserHold? }

  predicate GunDue(e: State, now: int) {
    GunPhase(e.phase) && e.gunPending && now >= e.gunDue
  }

  /** The end of a turret turn. */
  function StopTurret(e: State, now: int): State {
    var e1 := e.(turretCmd := 0, out := e.out.(turret := 0));
    match e.phase
    case TurretA => Enter(e1, LaserArm, now, ARM_MS)
    case TurretRev => Enter(e1, HeadlightDelay2, now, HEADLIGHT_DELAY_MS)
    case _ => Enter(e1, GatlingArm, now, ARM_MS)
  }

  /** The switch at the end of tick. */
  function Advance(e: State, now: int, random: nat): State {
    match e.phase
    case Start => StartLap(e, now)
    case LaserArm => Enter(ArmLaserShot(e, now), LaserGap, now, LASER_SOUND_MS + GUN_MS)
    case LaserGap => Enter(ArmLaserShot(e, now), LaserHold, now, AFTER_LASER_MS)
    case LaserHold => Enter(e, HeadlightDelay, now, HEADLIGHT_DELAY_MS)
    case HeadlightDelay => StartHeadlight(e, now, HeadlightOn)
    case HeadlightOn => StopHeadlight(e, now, AfterHeadlight)
    case AfterHeadlight => StartTurret(e, now, TurretRev)
    case HeadlightDelay2 => StartHeadlight(e, now, HeadlightOn2)
    case HeadlightOn2 => StopHeadlight(e, now, AfterHeadlight2)
    case AfterHeadlight2 => StartTurret(e, now, TurretB)
    case GatlingArm => Enter(FireGatlingOnce(e), GatlingGap, now, ARM_MS)
    case GatlingGap => Enter(FireGatlingOnce(e), AfterGatling, now, AFTER_GATLING_MS)
    case AfterGatling => Enter(e.(out := e.out.(mist := true)), Mist, now, MIST_MS)
    case Mist => Enter(e.(out := e.out.(mist := false)), AfterMist, now, AFTER_MIST_MS)
    case AfterMist => PlayCycleSfx(e, now, random)
    case Sfx => Enter(e.(out := e.out.(radar := false)), AfterSfx, now, AFTER_SFX_MS)
    case AfterSfx => StartLap(e, now)
    case _ => e
  }

  /** What is_connected answers the up to three times that one tick asks: first thing, before the gun
      sound, and before the phase acts. */
  datatype Answers = Answers(first: bool, gun: bool, phase: bool)

  /** Second half of tick. */
  function PhaseTick(e: State, now: int, connected: bool, random: nat): State {
    if TurretPhase(e.phase) then
      if now < e.until then if connected then e else e.(out := e.out.(turret := e.turretCmd))
      else if connected then e
      else StopTurret(e, now)
    else if !e.phase.Start? && now < e.until then e
    else if connected then e
    else Advance(e, now, random)
  }

  function Tick(e: State, now: int, connected: Answers, random: nat): State {
    if !e.active || connected.first then e
    else
      var e1 := e.(out := e.out.(wheelsStopped := true));
      if GunDue(e1, now) then
        if connected.gun then e1 else PhaseTick(PlayGun(e1), now, connected.phase, random)
      else PhaseTick(e1, now, connected.phase, random)
  }

  // Outputs and phase agree.

  predicate AllOff(out: Outputs) {
    !out.headlight && !out.mist && !out.radar && out.turret == 0
  }

  function Sign(k: nat): int { if k % 2 == 0 then 1 else -1 }

  /** Turret turns begun in a lap, up to and including the phase. */
  function TurnsIn(p: Phase): nat {
    match p
    case Start => 0
    case TurretA => 1 case LaserArm => 1 case LaserGap => 1 case LaserHold => 1
    case HeadlightDelay => 1 case HeadlightOn => 1 case AfterHeadlight => 1
    case TurretRev => 2 case HeadlightDelay2 => 2 case HeadlightOn2 => 2 case AfterHeadlight2 => 2
    case _ => 3
  }

  predicate OutputsAgree(e: State) {
    (e.out.headlight <==> HeadlightPhase(e.phase)) && MistAgrees(e) && RadarAgrees(e) && TurretAgrees(e)
  }

  predicate MistAgrees(e: State) { e.out.mist <==> e.phase.Mist? }

  predicate RadarAgrees(e: State) { e.out.radar <==> e.phase.Sfx? }

  predicate TurretAgrees(e: State) { e.out.turret == e.turretCmd }

  predicate GunAgrees(e: State) {
    && e.out.shots == e.out.sounds + (if e.gunPending then 1 else 0)
    && (e.gunPending ==> GunPhase(e.phase) && e.gunDue <= e.until)
  }

  predicate TurnsAlternate(e: State) {
    && e.turretSign == Sign(|e.past.turns|)
    && (forall k :: 0 <= k < |e.past.turns| ==> e.past.turns[k] == Sign(k) * TURRET_SPEED)
    && |e.past.turns| == 3 * |e.past.laps| + TurnsIn(e.phase)
    && (e.phase.Start? ==> e.past.laps == [])
  }

  /** Laser shots and gatling bursts in a lap, up to and including the phase: two of each. */
  function ShotsIn(p: Phase): nat {
    match p case Start => 0 case TurretA => 0 case LaserArm => 0 case LaserGap => 1 case _ => 2
  }

  function BurstsIn(p: Phase): nat {
    match p
    case AfterGatling => 2 case Mist => 2 case AfterMist => 2 case Sfx => 2 case AfterSfx => 2
    case GatlingGap => 1
    case _ => 0
  }

  predicate FiredTwice(e: State) {
    e.out.shots == 2 * |e.past.laps| + ShotsIn(e.phase) && e.out.bursts == 2 * |e.past.laps| + BurstsIn(e.phase)
  }

  /** The statics by themselves, whatever the outputs show. */
  predicate Steady(e: State) {
    if e.active then
      && (e.turretCmd != 0 <==> TurretPhase(e.phase))
      && GunAgrees(e) && TurnsAlternate(e) && FiredTwice(e)
    else e.turretCmd == 0 && !e.gunPending && e.phase.Start?
  }

  /** What ticks and aborts keep. */
  predicate Agree(e: State) {
    Steady(e) && (e.active ==> OutputsAgree(e))
  }

  lemma SignNext(k: nat)
    ensures Sign(k + 1) == -Sign(k) && Sign(k) != 0
  {}

  lemma TurretKeeps(e: State, now: int, phase: Phase)
    requires e.active && GunAgrees(e) && !e.gunPending
    requires e.turretSign == Sign(|e.past.turns|)
    requires forall k :: 0 <= k < |e.past.turns| ==> e.past.turns[k] == Sign(k) * TURRET_SPEED
    requires !HeadlightPhase(e.phase) && !e.phase.Mist? && !e.phase.Sfx? && TurretPhase(phase)
    requires |e.past.turns| + 1 == 3 * |e.past.laps| + TurnsIn(phase)
    requires e.out.shots == 2 * |e.past.laps| + ShotsIn(phase) && e.out.bursts == 2 * |e.past.laps| + BurstsIn(phase)
    ensures Steady(StartTurret(e, now, phase))
  {
    SignNext(|e.past.turns|);
    hide Sign;
  }

  lemma PhaseTickKeeps(e: State, now: int, connected: bool, random: nat)
    requires e.active && Steady(e) && !GunDue(e, now)
    ensures Steady(PhaseTick(e, now, connected, random))
  {
    hide Sign, TrackMs;
    if !TurretPhase(e.phase) && (e.phase.Start? || now >= e.until) && !connected {
      match e.phase
      case Start =>
        TurretKeeps(e.(past := e.past.(lapStart := now)), now, TurretA);
      case AfterSfx =>
        TurretKeeps(e.(past := e.past.(laps := e.past.laps + [Lap(e.past.lapStart, now, e.past.track)],
                                       lapStart := now)), now, TurretA);
      case AfterHeadlight => TurretKeeps(e, now, TurretRev);
      case AfterHeadlight2 => TurretKeeps(e, now, TurretB);
      case _ =>
    }
  }

  lemma AdvanceAgrees(e: State, now: int, random: nat)
    requires e.active && OutputsAgree(e) && !TurretPhase(e.phase)
    ensures var r := Advance(e, now, random); r.active && OutputsAgree(r)
  {
    hide TrackMs;
  }

  lemma PhaseTickAgrees(e: State, now: int, connected: bool, random: nat)
    requires e.active && OutputsAgree(e)
    ensures var r := PhaseTick(e, now, connected, random); r.active && OutputsAgree(r)
  {
    if !TurretPhase(e.phase) {
      AdvanceAgrees(e, now, random);
    }
    hide Advance;
  }

  lemma GunKeeps(e: State, now: int)
    requires e.active && Steady(e)
    ensures var e1 := e.(out := e.out.(wheelsStopped := true));
            && Steady(e1) && (OutputsAgree(e) ==> OutputsAgree(e1))
            && (GunDue(e1, now) ==> Steady(PlayGun(e1)) && (OutputsAgree(e) ==> OutputsAgree(PlayGun(e1))))
  {
    hide Sign;
  }

  /** Whatever the clock shows and whenever is_connected turns true, a tick keeps outputs and phase in
      agreement, and the statics steady even where they are not. */
  lemma TickKeeps(e: State, now: int, connected: Answers, random: nat)
    requires Steady(e)
    ensures Steady(Tick(e, now, connected, random))
    ensures Agree(e) ==> Agree(Tick(e, now, connected, random))
  {
    if e.active && !connected.first {
      var e1 := e.(out := e.out.(wheelsStopped := true));
      var e2 := if GunDue(e1, now) then PlayGun(e1) else e1;
      GunKeeps(e, now);
      PhaseTickKeeps(e2, now, connected.phase, random);
      if OutputsAgree(e2) {
        PhaseTickAgrees(e2, now, connected.phase, random);
      }
      hide PhaseTick, Steady, OutputsAgree;
    }
  }

  /** abort leaves everything off, from any phase, even where outputs and phase do not agree. */
  lemma AbortKeeps(e: State)
    requires Steady(e)
    ensures Agree(Abort(e)) && !Abort(e).active
    ensures e.active ==> AllOff(Abort(e).out)
  {}

  /** begin turns off nothing but the headlight. */
  predicate Clean(out: Outputs) { !out.mist && !out.radar && out.turret == 0 }

  /** begin leaves outputs and phase in agreement exactly when mist, radar and turret are off before it. */
  lemma BeginKeeps(e: State)
    ensures Steady(Begin(e)) && (Agree(Begin(e)) <==> Clean(e.out))
  {}

  // Whole runs.

  /** What the callbacks of the other core and the timers write to the outputs at any moment: a device that
      becomes ready first, or a pad that leaves, stops the turret; a disconnection that leaves no device ready
      stops turret, radar and mist; the timers of the humidifier turn it on and off. */
  datatype Write = TurretOff | RadarOff | MistOff | MistOn

  function Written(out: Outputs, w: Write): Outputs {
    match w
    case TurretOff => out.(turret := 0)
    case RadarOff => out.(radar := false)
    case MistOff => out.(mist := false)
    case MistOn => out.(mist := true)
  }

  /** In the phase, the write is what the exhibit shows anyway. */
  predicate Suits(w: Write, p: Phase) {
    match w
    case TurretOff => !TurretPhase(p)
    case RadarOff => !p.Sfx?
    case MistOff => !p.Mist?
    case MistOn => p.Mist?
  }

  /** Outside: while the exhibit is off, the rounds of the input task drive the same outputs, and may leave
      them in any state. */
  datatype Event =
    | BeginEvent | AbortEvent | TickEvent(now: int, connected: Answers, random: nat)
    | Beside(write: Write) | Outside(out: Outputs)

  const OFF := State(false, Start, 0, 0, 1, false, 0, Outputs(false, false, false, 0, false, 0, 0, 0),
                     History([], [], 0, 0))

  function Step(e: State, ev: Event): State {
    match ev
    case BeginEvent => if e.active then e else Begin(e)
    case AbortEvent => Abort(e)
    case TickEvent(now, connected, random) => Tick(e, now, connected, random)
    case Beside(write) => e.(out := Written(e.out, write))
    case Outside(out) => if e.active then e else e.(out := out)
  }

  /** Its one caller begins the exhibit only when it is not running. */
  function Run(events: seq<Event>): State
    decreases |events|
  {
    if events == [] then OFF else Step(Run(events[..|events| - 1]), events[|events| - 1])
  }

  lemma {:induction false} AlwaysSteady(events: seq<Event>)
    ensures Steady(Run(events))
    decreases |events|
  {
    if events != [] {
      AlwaysSteady(events[..|events| - 1]);
      StepKeeps(Run(events[..|events| - 1]), events[|events| - 1]);
      hide Step, Steady;
    }
  }

  /** The event finds the outputs and the phase such that it can do no harm. */
  predicate Harmless(e: State, ev: Event) {
    match ev
    case BeginEvent => !e.active ==> Clean(e.out)
    case Beside(write) => e.active ==> Suits(write, e.phase)
    case _ => true
  }

  lemma BesideKeeps(e: State, write: Write)
    requires Steady(e)
    ensures Steady(Step(e, Beside(write)))
    ensures Agree(e) ==> (Agree(Step(e, Beside(write))) <==> Harmless(e, Beside(write)))
  {
    hide Sign, Tick;
  }

  lemma StepKeeps(e: State, ev: Event)
    requires Steady(e)
    ensures Steady(Step(e, ev))
    ensures Agree(e) ==> (Agree(Step(e, ev)) <==> Harmless(e, ev))
  {
    match ev
    case BeginEvent => BeginKeeps(e);
    case AbortEvent => AbortKeeps(e);
    case TickEvent(now, connected, random) => TickKeeps(e, now, connected, random);
    case Beside(write) => BesideKeeps(e, write);
    case Outside(_) =>
    hide Begin, Abort, Tick, OutputsAgree, Written, Suits;
  }

  /** Over every run, outputs and phase agree at every moment exactly if every begin finds mist, radar and
      turret off, and no other task or core stops the turret in a turn, the radar in its phase, or the mist in
      its phase, or turns the mist on in another. */
  lemma {:induction false} AgreesExactly(events: seq<Event>)
    ensures (forall k :: 0 <= k <= |events| ==> Agree(Run(events[..k])))
       <==> (forall k :: 0 <= k < |events| ==> Harmless(Run(events[..k]), events[k]))
    decreases |events|
  {
    hide Run, Agree, Step, Harmless;
    if events == [] {
      NothingBegun();
      assert events[..0] == [];
    } else {
      var n := |events| - 1;
      var before := events[..n];
      AgreesExactly(before);
      forall k | 0 <= k <= n
        ensures events[..k] == before[..k]
      {}
      assert events[..n + 1] == events && before[..n] == before;
      AlwaysSteady(before);
      LastStep(events);
      assert (forall k :: 0 <= k <= n ==> Agree(Run(before[..k]))) ==> Agree(Run(before[..n]));
      assert forall k :: 0 <= k < n ==> events[k] == before[k];
    }
  }

  lemma NothingBegun()
    ensures Agree(Run([]))
  {}

  lemma LastStep(events: seq<Event>)
    requires events != [] && Steady(Run(events[..|events| - 1]))
    ensures var e, ev := Run(events[..|events| - 1]), events[|events| - 1];
            Agree(e) ==> (Agree(Run(events)) <==> Harmless(e, ev))
  {
    StepKeeps(Run(events[..|events| - 1]), events[|events| - 1]);
    hide Step, Agree, Harmless;
  }

  /** A run that breaks it: after abort the pad turns the radar on, and the next begin leaves it on. */
  const RADAR_LEFT_ON := [BeginEvent, AbortEvent, Outside(OFF.out.(radar := true)), BeginEvent]

  lemma RadarLeftOn()
    ensures var e := Run(RADAR_LEFT_ON); e.active && e.phase.Start? && e.out.radar && !Agree(e)
  {
    var events := RADAR_LEFT_ON;
    assert events[..3][..2][..1] == [BeginEvent] && events[..3][..2][..1][..0] == [];
    assert events[..3][..2] == [BeginEvent, AbortEvent];
    assert Run([]) == OFF && Run([BeginEvent]) == Begin(OFF);
    assert Run(events[..3][..2]) == Abort(Begin(OFF));
    assert Run(events[..3]) == Step(Abort(Begin(OFF)), events[2]);
  }

  /** Lap n opens in direction (-1)^n, since a lap has three turns and every turn reverses the one before. */
  lemma LapOpens(events: seq<Event>, n: nat)
    requires Run(events).active && 3 * n < |Run(events).past.turns|
    ensures Run(events).past.turns[3 * n] == Sign(n) * TURRET_SPEED
  {
    AlwaysSteady(events);
    hide Run;
    ThirdTurn(n);
    hide Sign;
  }

  lemma {:induction false} ThirdTurn(n: nat)
    ensures Sign(3 * n) == Sign(n)
  {
    if n > 0 {
      ThirdTurn(n - 1);
      SignNext(n - 1);
      SignNext(3 * n - 3);
      SignNext(3 * n - 2);
      SignNext(3 * n - 1);
      hide Sign;
    }
  }

  /** When the laser phases are left because their time is over, every shot has had its sound. */
  lemma EveryShotSounded(events: seq<Event>, now: int, connected: Answers, random: nat)
    requires Run(events).phase.LaserHold? && !Tick(Run(events), now, connected, random).phase.LaserHold?
    ensures var e := Tick(Run(events), now, connected, random);
            e.phase.HeadlightDelay? && !e.gunPending && e.out.shots == e.out.sounds
  {
    AlwaysSteady(events);
    hide Run, Sign;
  }

  // How long a lap takes.

  function Duration(p: Phase, track: nat): nat {
    match p
    case TurretA => TURRET_MS case TurretRev => TURRET_MS case TurretB => TURRET_MS
    case LaserArm => ARM_MS case GatlingArm => ARM_MS case GatlingGap => ARM_MS
    case LaserGap => LASER_SOUND_MS + GUN_MS
    case LaserHold => AFTER_LASER_MS
    case HeadlightDelay => HEADLIGHT_DELAY_MS case HeadlightDelay2 => HEADLIGHT_DELAY_MS
    case HeadlightOn => HEADLIGHT_MS case HeadlightOn2 => HEADLIGHT_MS
    case AfterHeadlight => AFTER_HEADLIGHT_MS case AfterHeadlight2 => AFTER_HEADLIGHT_MS
    case AfterGatling => AFTER_GATLING_MS
    case Mist => MIST_MS
    case AfterMist => AFTER_MIST_MS
    case Sfx => TrackMs(track)
    case AfterSfx => AFTER_SFX_MS
    case Start => 0
  }

  /** The phases of a lap in order. */
  function Nth(i: nat): Phase {
    match i
    case 0 => TurretA case 1 => LaserArm case 2 => LaserGap case 3 => LaserHold
    case 4 => HeadlightDelay case 5 => HeadlightOn case 6 => AfterHeadlight
    case 7 => TurretRev case 8 => HeadlightDelay2 case 9 => HeadlightOn2 case 10 => AfterHeadlight2
    case 11 => TurretB case 12 => GatlingArm case 13 => GatlingGap case 14 => AfterGatling
    case 15 => Mist case 16 => AfterMist case 17 => Sfx case _ => AfterSfx
  }

  function Index(p: Phase): (i: nat)
    ensures !p.Start? ==> i <= 18 && Nth(i) == p
  {
    match p
    case TurretA => 0 case LaserArm => 1 case LaserGap => 2 case LaserHold => 3
    case HeadlightDelay => 4 case HeadlightOn => 5 case AfterHeadlight => 6
    case TurretRev => 7 case HeadlightDelay2 => 8 case HeadlightOn2 => 9 case AfterHeadlight2 => 10
    case TurretB => 11 case GatlingArm => 12 case GatlingGap => 13 case AfterGatling => 14
    case Mist => 15 case AfterMist => 16 case Sfx => 17 case AfterSfx => 18 case Start => 0
  }

  /** The durations of the first i phases of a lap, and how late ticks at most d apart can make it. */
  function Nominal(i: nat, track: nat): nat {
    if i == 0 then 0 else Nominal(i - 1, track) + Duration(Nth(i - 1), track)
  }

  function Lateness(i: nat, d: nat): nat {
    if i == 0 then 0 else Lateness(i - 1, d) + d
  }

  /** start falls where ticks at most d + 1 apart let the i-th phase of a lap begin. */
  predicate InTime(lapStart: int, start: int, i: nat, track: nat, d: nat) {
    lapStart + Nominal(i, track) <= start <= lapStart + Nominal(i, track) + Lateness(i, d)
  }

  /** After a tick at last, ticks being at most d + 1 apart. */
  predicate Timed(e: State, last: int, d: nat) {
    && e.active
    && (forall k :: 0 <= k < |e.past.laps| ==> LapInTime(e.past.laps[k], d))
    && (!e.phase.Start? ==>
          && last < e.until
          && InTime(e.past.lapStart, e.until - Duration(e.phase, e.past.track), Index(e.phase), e.past.track, d))
  }

  predicate LapInTime(lap: Lap, d: nat) {
    InTime(lap.start, lap.end, 19, lap.track, d)
  }

  const FREE := Answers(false, false, false)

  lemma NominalSame(i: nat, track: nat, track': nat)
    requires i <= 17
    ensures Nominal(i, track) == Nominal(i, track')
  {
    if i > 0 {
      NominalSame(i - 1, track, track');
    }
  }

  /** r follows e at time now, one phase on. */
  predicate OnePhaseOn(e: State, now: int, r: State) {
    var i := Index(e.phase);
    && r.active
    && if i < 18 then
         && r.phase == Nth(i + 1) && Index(r.phase) == i + 1
         && r.past.laps == e.past.laps && r.past.lapStart == e.past.lapStart
         && (i != 16 ==> r.past.track == e.past.track)
         && r.until == now + Duration(r.phase, r.past.track)
       else
         && r.phase == TurretA && r.until == now + TURRET_MS && r.past.track == e.past.track
         && r.past.laps == e.past.laps + [Lap(e.past.lapStart, now, e.past.track)]
         && r.past.lapStart == now
  }

  lemma ExpiredTurret(e: State, now: int, random: nat)
    requires e.active && TurretPhase(e.phase) && now >= e.until
    ensures OnePhaseOn(e, now, PhaseTick(e, now, false, random))
  {
    hide TrackMs, Advance;
  }

  lemma ExpiredEarly(e: State, now: int, random: nat)
    requires e.active && !e.phase.Start? && !TurretPhase(e.phase) && Index(e.phase) <= 9
    ensures OnePhaseOn(e, now, Advance(e, now, random))
  {
    hide TrackMs;
  }

  lemma ExpiredLate(e: State, now: int, random: nat)
    requires e.active && !TurretPhase(e.phase) && 9 < Index(e.phase)
    ensures OnePhaseOn(e, now, Advance(e, now, random))
  {
    hide TrackMs;
  }

  lemma ExpiredPhase(e: State, now: int, random: nat)
    requires e.active && !e.phase.Start? && now >= e.until
    ensures OnePhaseOn(e, now, PhaseTick(e, now, false, random))
  {
    hide Advance, StopTurret, Index, OnePhaseOn;
    if TurretPhase(e.phase) {
      ExpiredTurret(e, now, random);
    } else if Index(e.phase) <= 9 {
      ExpiredEarly(e, now, random);
    } else {
      ExpiredLate(e, now, random);
    }
  }

  /** An expired phase hands over to the next one of the lap, or to the next lap. */
  lemma NextPhase(e: State, now: int, random: nat)
    requires e.active && !e.phase.Start? && now >= e.until
    ensures OnePhaseOn(e, now, Tick(e, now, FREE, random))
  {
    var e1 := e.(out := e.out.(wheelsStopped := true));
    var e2 := if GunDue(e1, now) then PlayGun(e1) else e1;
    ExpiredPhase(e2, now, random);
    hide PhaseTick, Nth, Index, Duration;
  }

  lemma SamePhase(e: State, now: int, random: nat)
    requires e.active && !e.phase.Start? && now < e.until
    ensures var r := Tick(e, now, FREE, random);
            r.active && r.phase == e.phase && r.until == e.until && r.past == e.past
  {}

  lemma FirstPhase(e: State, now: int, random: nat)
    requires e.active && e.phase.Start?
    ensures var r := Tick(e, now, FREE, random);
            && r.active && r.phase == TurretA && r.until == now + TURRET_MS
            && r.past.laps == e.past.laps && r.past.lapStart == now
  {}

  lemma DurationPositive(p: Phase, track: nat)
    requires !p.Start?
    ensures Duration(p, track) > 0
  {}

  lemma InTimeNext(lapStart: int, start: int, now: int, i: nat, track: nat, d: nat)
    requires InTime(lapStart, start, i, track, d)
    requires start + Duration(Nth(i), track) <= now <= start + Duration(Nth(i), track) + d
    ensures InTime(lapStart, now, i + 1, track, d)
  {
    hide Duration;
  }

  lemma TimedTick(e: State, last: int, now: int, random: nat, d: nat)
    requires Timed(e, last, d) && last <= now <= last + d + 1
    ensures Timed(Tick(e, now, FREE, random), now, d)
  {
    var r := Tick(e, now, FREE, random);
    if e.phase.Start? {
      FirstPhase(e, now, random);
    } else if now < e.until {
      SamePhase(e, now, random);
    } else {
      var i, track := Index(e.phase), e.past.track;
      NextPhase(e, now, random);
      InTimeNext(e.past.lapStart, e.until - Duration(e.phase, track), now, i, track, d);
      if i < 18 {
        DurationPositive(r.phase, r.past.track);
        if i == 16 {
          NominalSame(17, track, r.past.track);
        }
      }
      hide Nominal, Lateness, Duration, Tick;
    }
    hide Tick, Nominal, Lateness;
  }

  lemma NominalLap(track: nat)
    ensures Nominal(19, track) == 34107 + TrackMs(track)
  {
    hide TrackMs;
    forall i: nat | i < 19
      ensures Nominal(i + 1, track) == Nominal(i, track) + Duration(Nth(i), track)
    {}
    hide Nominal;
    assert Nominal(0 + 1, track) == 2000 && Nominal(1 + 1, track) == 3000 && Nominal(2 + 1, track) == 5107;
    assert Nominal(3 + 1, track) == 8107 && Nominal(4 + 1, track) == 9107 && Nominal(5 + 1, track) == 12107;
    assert Nominal(6 + 1, track) == 13107 && Nominal(7 + 1, track) == 15107 && Nominal(8 + 1, track) == 16107;
    assert Nominal(9 + 1, track) == 19107 && Nominal(10 + 1, track) == 20107 && Nominal(11 + 1, track) == 22107;
    assert Nominal(12 + 1, track) == 23107 && Nominal(13 + 1, track) == 24107 && Nominal(14 + 1, track) == 27107;
    assert Nominal(15 + 1, track) == 29107 && Nominal(16 + 1, track) == 32107;
    assert Nominal(17 + 1, track) == 32107 + TrackMs(track) && Nominal(18 + 1, track) == 34107 + TrackMs(track);
  }

  lemma {:induction false} LatenessLap(i: nat, d: nat)
    ensures Lateness(i, d) == i * d
  {
    if i > 0 {
      LatenessLap(i - 1, d);
    }
  }

  /** A tick with nothing connected. */
  datatype FreeTick = FreeTick(now: int, random: nat)

  predicate Spaced(ticks: seq<FreeTick>, gap: nat) {
    forall i :: 0 < i < |ticks| ==> ticks[i - 1].now <= ticks[i].now <= ticks[i - 1].now + gap
  }

  function Ticks(e: State, ticks: seq<FreeTick>): State
    decreases |ticks|
  {
    if ticks == [] then e
    else
      var t := ticks[|ticks| - 1];
      Tick(Ticks(e, ticks[..|ticks| - 1]), t.now, FREE, t.random)
  }

  lemma {:induction false} TimedTicks(e: State, ticks: seq<FreeTick>, d: nat)
    requires ticks != [] && Spaced(ticks, d + 1)
    ensures Timed(Ticks(Begin(e), ticks), ticks[|ticks| - 1].now, d)
    decreases |ticks|
  {
    var before, t := ticks[..|ticks| - 1], ticks[|ticks| - 1];
    if before == [] {
      assert Ticks(Begin(e), before) == Begin(e);
      assert Timed(Begin(e), t.now, d);
      TimedTick(Begin(e), t.now, t.now, t.random, d);
    } else {
      TimedTicks(e, before, d);
      TimedTick(Ticks(Begin(e), before), before[|before| - 1].now, t.now, t.random, d);
    }
  }

  /** If ticks are at most gap ms apart, every lap since begin lasts 34107 ms and its track at least, and
      less than 19 gaps longer. */
  lemma LapTime(e: State, ticks: seq<FreeTick>, gap: nat, k: nat)
    requires gap > 0 && Spaced(ticks, gap) && k < |Ticks(Begin(e), ticks).past.laps|
    ensures var lap := Ticks(Begin(e), ticks).past.laps[k];
            34107 + TrackMs(lap.track) <= lap.end - lap.start < 34107 + TrackMs(lap.track) + 19 * gap
  {
    NoTicks(e);
    hide *;
    if ticks != [] {
      TimedTicks(e, ticks, gap - 1);
      TimedLap(Ticks(Begin(e), ticks), ticks[|ticks| - 1].now, gap - 1, k);
      LapBounds(Ticks(Begin(e), ticks).past.laps[k], gap);
    }
  }

  lemma NoTicks(e: State)
    ensures Ticks(Begin(e), []).past.laps == []
  {}

  lemma TimedLap(e: State, last: int, d: nat, k: nat)
    requires Timed(e, last, d) && k < |e.past.laps|
    ensures LapInTime(e.past.laps[k], d)
  {
    hide InTime, LapInTime;
  }

  lemma LapBounds(lap: Lap, gap: nat)
    requires gap > 0 && LapInTime(lap, gap - 1)
    ensures 34107 + TrackMs(lap.track) <= lap.end - lap.start < 34107 + TrackMs(lap.track) + 19 * gap
  {
    hide Nominal, Lateness, TrackMs;
    NominalLap(lap.track);
    LatenessLap(19, gap - 1);
  }

  // When the outputs are right again.

  predicate MistSet(p: Phase) { p.Mist? || p.AfterMist? || RadarSet(p) }

  predicate RadarSet(p: Phase) { p.Sfx? || p.AfterSfx? }

  /** The mist is right from the phase that sets it on in lap k + 1. */
  predicate MistHeals(e: State, k: int) {
    |e.past.laps| > k + 1 || (|e.past.laps| == k + 1 && MistSet(e.phase)) ==> MistAgrees(e)
  }

  predicate RadarHeals(e: State, k: int) {
    |e.past.laps| > k + 1 || (|e.past.laps| == k + 1 && RadarSet(e.phase)) ==> RadarAgrees(e)
  }

  /** The turret is right from the first turn of lap k + 1 on. */
  predicate TurretHeals(e: State, k: int) { |e.past.laps| > k && !e.phase.Start? ==> TurretAgrees(e) }

  /** From the laps m, r and c on. */
  predicate Heals(e: State, m: int, r: int, c: int) {
    e.active ==> MistHeals(e, m) && RadarHeals(e, r) && TurretHeals(e, c)
  }

  lemma MistAdvances(e: State, now: int, random: nat, k: int)
    requires MistHeals(e, k) && (e.phase.Start? ==> e.past.laps == []) && !TurretPhase(e.phase)
    ensures MistHeals(Advance(e, now, random), k)
  {
    hide TrackMs;
    match e.phase {
      case Start => case TurretA => case LaserArm => case LaserGap => case LaserHold =>
      case HeadlightDelay => case HeadlightOn => case AfterHeadlight =>
      case TurretRev => case HeadlightDelay2 => case HeadlightOn2 => case AfterHeadlight2 =>
      case TurretB => case GatlingArm => case GatlingGap => case AfterGatling =>
      case Mist => case AfterMist => case Sfx => case AfterSfx =>
    }
  }

  lemma RadarAdvances(e: State, now: int, random: nat, k: int)
    requires RadarHeals(e, k) && (e.phase.Start? ==> e.past.laps == []) && !TurretPhase(e.phase)
    ensures RadarHeals(Advance(e, now, random), k)
  {
    hide TrackMs;
    match e.phase {
      case Start => case TurretA => case LaserArm => case LaserGap => case LaserHold =>
      case HeadlightDelay => case HeadlightOn => case AfterHeadlight =>
      case TurretRev => case HeadlightDelay2 => case HeadlightOn2 => case AfterHeadlight2 =>
      case TurretB => case GatlingArm => case GatlingGap => case AfterGatling =>
      case Mist => case AfterMist => case Sfx => case AfterSfx =>
    }
  }

  lemma TurretAdvances(e: State, now: int, random: nat, k: int)
    requires TurretHeals(e, k) && !TurretPhase(e.phase)
    ensures TurretHeals(Advance(e, now, random), k)
  {
    hide TrackMs;
    match e.phase {
      case Start => case TurretA => case LaserArm => case LaserGap => case LaserHold =>
      case HeadlightDelay => case HeadlightOn => case AfterHeadlight =>
      case TurretRev => case HeadlightDelay2 => case HeadlightOn2 => case AfterHeadlight2 =>
      case TurretB => case GatlingArm => case GatlingGap => case AfterGatling =>
      case Mist => case AfterMist => case Sfx => case AfterSfx =>
    }
  }

  lemma PhaseTickHeals(e: State, now: int, connected: bool, random: nat, m: int, r: int, c: int)
    requires e.active && Heals(e, m, r, c) && (e.phase.Start? ==> e.past.laps == [])
    ensures Heals(PhaseTick(e, now, connected, random), m, r, c)
  {
    if !TurretPhase(e.phase) {
      MistAdvances(e, now, random, m);
      RadarAdvances(e, now, random, r);
      TurretAdvances(e, now, random, c);
    }
    hide Advance;
  }

  lemma TickHeals(e: State, now: int, connected: Answers, random: nat, m: int, r: int, c: int)
    requires Heals(e, m, r, c) && Steady(e)
    ensures Heals(Tick(e, now, connected, random), m, r, c)
  {
    if e.active && !connected.first {
      var e1 := e.(out := e.out.(wheelsStopped := true));
      var e2 := if GunDue(e1, now) then PlayGun(e1) else e1;
      assert e.phase.Start? ==> e.past.laps == [];
      PhaseTickHeals(e2, now, connected.phase, random, m, r, c);
    }
    hide PhaseTick, Sign;
  }

  predicate NoWrites(events: seq<Event>) {
    forall i :: 0 <= i < |events| ==> !events[i].Beside?
  }

  predicate NoBegins(events: seq<Event>) {
    forall i :: 0 <= i < |events| ==> !events[i].BeginEvent?
  }

  lemma StepHeals(e: State, ev: Event, m: int, r: int, c: int)
    requires Heals(e, m, r, c) && Steady(e) && !ev.Beside?
    requires ev.BeginEvent? ==> m >= -1 && r >= -1
    ensures Heals(Step(e, ev), m, r, c)
  {
    if ev.TickEvent? {
      TickHeals(e, ev.now, ev.connected, ev.random, m, r, c);
      hide Tick, Heals;
    }
    hide Tick, Sign;
  }

  lemma RunMore(events: seq<Event>, more: seq<Event>)
    ensures more == [] ==> events + more == events
    ensures more != [] ==>
              var n := |more| - 1;
              Run(events + more) == Step(Run(events + more[..n]), more[n])
  {
    if more != [] {
      assert (events + more)[..|events + more| - 1] == events + more[..|more| - 1];
    }
  }

  lemma {:induction false} HealsOn(events: seq<Event>, more: seq<Event>, m: int, r: int, c: int)
    requires Heals(Run(events), m, r, c) && NoWrites(more) && ((m >= -1 && r >= -1) || NoBegins(more))
    ensures Heals(Run(events + more), m, r, c)
    decreases |more|
  {
    RunMore(events, more);
    if more != [] {
      var n := |more| - 1;
      assert NoWrites(more[..n]) && !more[n].Beside?;
      assert NoBegins(more) ==> NoBegins(more[..n]) && !more[n].BeginEvent?;
      hide Run, Step, Heals, NoWrites, NoBegins;
      HealsOn(events, more[..n], m, r, c);
      AlwaysSteady(events + more[..n]);
      StepHeals(Run(events + more[..n]), more[n], m, r, c);
    }
  }

  /** Nothing else lights the headlight while the exhibit runs, and the turret turns as the phase says or not
      at all. */
  predicate Shown(e: State) {
    e.active ==>
      && (e.out.headlight <==> HeadlightPhase(e.phase))
      && (!e.phase.Start? ==> TurretAgrees(e) || e.out.turret == 0)
  }

  lemma AdvanceShown(e: State, now: int, random: nat)
    requires e.active && Shown(e) && Steady(e) && !TurretPhase(e.phase)
    ensures Shown(Advance(e, now, random))
  {
    hide TrackMs, Sign;
  }

  lemma TickShown(e: State, now: int, connected: Answers, random: nat)
    requires Shown(e) && Steady(e)
    ensures Shown(Tick(e, now, connected, random))
  {
    if e.active && !connected.first {
      var e1 := e.(out := e.out.(wheelsStopped := true));
      var e2 := if GunDue(e1, now) then PlayGun(e1) else e1;
      GunKeeps(e, now);
      if !TurretPhase(e.phase) {
        AdvanceShown(e2, now, random);
      }
    }
    hide Advance, Steady;
  }

  lemma {:induction false} AlwaysShown(events: seq<Event>)
    ensures Shown(Run(events))
    decreases |events|
  {
    if events != [] {
      var before, ev := events[..|events| - 1], events[|events| - 1];
      AlwaysShown(before);
      if ev.TickEvent? {
        AlwaysSteady(before);
        TickShown(Run(before), ev.now, ev.connected, ev.random);
      }
    }
    hide Tick;
  }

  /** A tick that nothing blocks sets the turret, and the mist or the radar where it enters a phase that
      switches it. */
  lemma TickSets(e: State, now: int, connected: Answers, random: nat)
    requires e.active && Steady(e) && (!e.phase.Start? ==> TurretAgrees(e) || e.out.turret == 0)
    ensures var r := Tick(e, now, connected, random);
            && (r.phase != e.phase && (r.phase.Mist? || r.phase.AfterMist?) ==> MistAgrees(r))
            && (r.phase != e.phase && RadarSet(r.phase) ==> RadarAgrees(r))
            && (connected == FREE ==> TurretAgrees(r))
  {
    hide TrackMs, Sign;
  }

  /** Whatever has been written beside it: the turret is right from the next tick on that nothing blocks,
      mist and radar from the next phase on that switches them, until something is written again or the
      exhibit is begun anew. */
  lemma RightAgain(events: seq<Event>, tick: Event, more: seq<Event>)
    requires tick.TickEvent? && Run(events).active && NoWrites(more) && NoBegins(more)
    requires Run(events + [tick] + more).active
    ensures var e, e1, r := Run(events), Run(events + [tick]), Run(events + [tick] + more);
            && (e1.phase != e.phase && (e1.phase.Mist? || e1.phase.AfterMist?) ==> MistAgrees(r))
            && (e1.phase != e.phase && RadarSet(e1.phase) ==> RadarAgrees(r))
            && (tick.connected == FREE ==> r.phase.Start? || TurretAgrees(r))
  {
    var e, e1 := Run(events), Run(events + [tick]);
    var l := |e1.past.laps|;
    RunMore(events, [tick]);
    assert [tick][..0] == [] && events + [] == events;
    AlwaysSteady(events);
    AlwaysShown(events);
    TickSets(e, tick.now, tick.connected, tick.random);
    var m := if MistAgrees(e1) then -2 else l;
    var c := if RadarAgrees(e1) then -2 else l;
    var u := if TurretAgrees(e1) then -1 else l;
    assert e1 == Tick(e, tick.now, tick.connected, tick.random);
    hide Run, Tick, MistAgrees, RadarAgrees, TurretAgrees, NoWrites, NoBegins;
    HealsOn(events + [tick], more, m, c, u);
  }

  /** And without any further write all outputs are right in every lap that opens after the current one, save
      the next; from a begin on, whatever it found on, save the first. */
  lemma AgreesAgain(events: seq<Event>, more: seq<Event>)
    requires NoWrites(more) && Run(events + more).active
    requires var e := Run(events);
             |Run(events + more).past.laps| > if e.phase.Start? then 0 else |e.past.laps| + 1
    ensures Agree(Run(events + more))
  {
    var e := Run(events);
    var k := if e.phase.Start? then -1 else |e.past.laps|;
    AlwaysSteady(events);
    AlwaysSteady(events + more);
    AlwaysShown(events + more);
    assert Heals(e, k, k, k);
    hide Run, NoWrites, Sign;
    HealsOn(events, more, k, k, k);
  }

  /** A run that breaks the agreement although begin finds all off: a device becomes ready during the first
      turn, and stops the turret. */
  lemma ReadyInTurn()
    ensures var e := Run([BeginEvent, TickEvent(0, FREE, 0), Beside(TurretOff)]);
            e.active && e.phase.TurretA? && e.turretCmd == TURRET_SPEED && e.out.turret == 0 && !Agree(e)
  {
    var events := [BeginEvent, TickEvent(0, FREE, 0), Beside(TurretOff)];
    assert events[..2][..1] == [BeginEvent] && [BeginEvent][..0] == [];
    assert Run([]) == OFF && Run([BeginEvent]) == Begin(OFF);
    assert Run(events[..2]) == Tick(Begin(OFF), 0, FREE, 0);
  }

  // The exhibit as the program keeps it.

  class TableExhibit {
    var active: bool
    var phase: Phase
    var phaseUntilMs: int
    var turretCmd: int
    var turretSign: int
    var gunPending: bool
    var gunDueMs: int
    var out: Outputs
    var past: History

    function View(): State
      reads this
    {
      State(active, phase, phaseUntilMs, turretCmd, turretSign, gunPending, gunDueMs, out, past)
    }

    constructor ()
      ensures View() == OFF
    {
      active, phase, phaseUntilMs, turretCmd, turretSign := false, Start, 0, 0, 1;
      gunPending, gunDueMs := false, 0;
      out := Outputs(false, false, false, 0, false, 0, 0, 0);
      past := History([], [], 0, 0);
    }

    method BeginExhibit()
      modifies this
      ensures View() == Begin(old(View()))
    {
      active, phase, phaseUntilMs, turretCmd, turretSign := true, Start, 0, 0, 1;
      gunPending, gunDueMs := false, 0;
      out := out.(headlight := false, shots := 0, sounds := 0, bursts := 0);
      past := History([], [], 0, 0);
    }

    method AbortExhibit()
      modifies this
      ensures View() == Abort(old(View()))
    {
      if !active {
        return;
      }
      active, phase, turretCmd, gunPending := false, Start, 0, false;
      out := out.(turret := 0, headlight := false, radar := false, mist := false, wheelsStopped := true);
    }

    method EnterPhase(next: Phase, now: int, duration: nat)
      modifies `phase, `phaseUntilMs
      ensures View() == Enter(old(View()), next, now, duration)
    {
      phase := next;
      phaseUntilMs := now + duration;
    }

    method TurnTurret(now: int, next: Phase)
      modifies this
      ensures View() == StartTurret(old(View()), now, next)
    {
      turretCmd := turretSign * TURRET_SPEED;
      turretSign := -turretSign;
      out := out.(turret := turretCmd);
      past := past.(turns := past.turns + [turretCmd]);
      EnterPhase(next, now, TURRET_MS);
    }

    method OpenLap(now: int)
      modifies this
      ensures View() == StartLap(old(View()), now)
    {
      if phase != Start {
        past := past.(laps := past.laps + [Lap(past.lapStart, now, past.track)]);
      }
      past := past.(lapStart := now);
      TurnTurret(now, TurretA);
    }

    method Shoot(now: int)
      modifies `out, `gunPending, `gunDueMs
      ensures View() == ArmLaserShot(old(View()), now)
    {
      out := out.(shots := out.shots + 1);
      gunPending := true;
      gunDueMs := now + LASER_SOUND_MS;
    }

    method EndTurret(now: int)
      modifies this
      ensures View() == StopTurret(old(View()), now)
    {
      turretCmd := 0;
      out := out.(turret := 0);
      if phase == TurretA {
        EnterPhase(LaserArm, now, ARM_MS);
      } else if phase == TurretRev {
        EnterPhase(HeadlightDelay2, now, HEADLIGHT_DELAY_MS);
      } else {
        EnterPhase(GatlingArm, now, ARM_MS);
      }
    }

    method SwitchPhase(now: int, random: nat)
      modifies this
      ensures View() == Advance(old(View()), now, random)
    {
      hide TrackMs, StartLap, StartTurret, Enter, ArmLaserShot;
      match phase
      case Start => OpenLap(now);
      case LaserArm =>
        Shoot(now);
        EnterPhase(LaserGap, now, LASER_SOUND_MS + GUN_MS);
      case LaserGap =>
        Shoot(now);
        EnterPhase(LaserHold, now, AFTER_LASER_MS);
      case LaserHold => EnterPhase(HeadlightDelay, now, HEADLIGHT_DELAY_MS);
      case HeadlightDelay =>
        out := out.(headlight := true);
        EnterPhase(HeadlightOn, now, HEADLIGHT_MS);
      case HeadlightOn =>
        out := out.(headlight := false);
        EnterPhase(AfterHeadlight, now, AFTER_HEADLIGHT_MS);
      case AfterHeadlight => TurnTurret(now, TurretRev);
      case HeadlightDelay2 =>
        out := out.(headlight := true);
        EnterPhase(HeadlightOn2, now, HEADLIGHT_MS);
      case HeadlightOn2 =>
        out := out.(headlight := false);
        EnterPhase(AfterHeadlight2, now, AFTER_HEADLIGHT_MS);
      case AfterHeadlight2 => TurnTurret(now, TurretB);
      case GatlingArm =>
        out := out.(bursts := out.bursts + 1);
        EnterPhase(GatlingGap, now, ARM_MS);
      case GatlingGap =>
        out := out.(bursts := out.bursts + 1);
        EnterPhase(AfterGatling, now, AFTER_GATLING_MS);
      case AfterGatling =>
        out := out.(mist := true);
        EnterPhase(Mist, now, MIST_MS);
      case Mist =>
        out := out.(mist := false);
        EnterPhase(AfterMist, now, AFTER_MIST_MS);
      case AfterMist =>
        var track := random % 4;
        out := out.(radar := true);
        past := past.(track := track);
        EnterPhase(Sfx, now, TrackMs(track));
      case Sfx =>
        out := out.(radar := false);
        EnterPhase(AfterSfx, now, AFTER_SFX_MS);
      case AfterSfx => OpenLap(now);
      case _ =>
    }

    /** rccar_exhibit_tick. */
    method TickExhibit(now: int, connected: Answers, random: nat)
      modifies this
      ensures View() == Tick(old(View()), now, connected, random)
    {
      hide Advance, StopTurret;
      if !active || connected.first {
        return;
      }
      out := out.(wheelsStopped := true);
      if (phase == LaserGap || phase == LaserHold) && gunPending && now >= gunDueMs {
        if connected.gun {
          return;
        }
        out := out.(sounds := out.sounds + 1);
        gunPending := false;
      }
      if phase == TurretA || phase == TurretRev || phase == TurretB {
        if now < phaseUntilMs {
          if !connected.phase {
            out := out.(turret := turretCmd);
          }
          return;
        }
        if connected.phase {
          return;
        }
        EndTurret(now);
        return;
      }
      if phase != Start && now < phaseUntilMs {
        return;
      }
      if connected.phase {
        return;
      }
      SwitchPhase(now, random);
    }
  }
}
