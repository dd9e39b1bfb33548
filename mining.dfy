/**
 * The mining component: a miner address that IsMining reports on, a
 * difficulty with a floor, and a repeating timer whose ticks announce a reward
 * while an address is set. StartMining's guard turns away every non-empty
 * address, so the component never mines.
 *
 * Float fields are reals; the reward (which draws a random bonus) and the block
 * hash (a fresh GUID) are passed in to the tick.
 */
module Mining {
  import opened Wrappers

  /** The difficulty SetMiningDifficulty never goes below. */
  const MinDifficulty: real := 0.1

  /** OnMiningComplete's payload. */
  datatype MiningEvent = MiningComplete(reward: real, blockHash: string)

  /**
   * What the component's methods change: the miner address, the difficulty,
   * the looping timer (its period while armed) and the broadcasts.
   */
  datatype MiningState = MiningState(minerAddress: string, difficulty: real, timer: Option<real>, events: seq<MiningEvent>)

  /** The fields the constructor sets up. */
  datatype Settings = Settings(miningPower: real, miningInterval: real, autoStartMining: bool)

  const DefaultSettings := Settings(1.0, 60.0, false)

  const Initial := MiningState("", 1.0, None, [])

  /** IsMining. */
  predicate Mines(st: MiningState) {
    st.minerAddress != []
  }

  /**
   * StartMining: without a world, or for any non-empty address, nothing
   * happens; the empty address is stored and the timer armed with the interval.
   */
  function Start(hasWorld: bool, settings: Settings, st: MiningState, minerAddress: string): (r: MiningState)
    ensures !hasWorld || minerAddress != [] ==> r == st
    ensures Mines(r) ==> r == st
    ensures r.difficulty == st.difficulty && r.events == st.events
    ensures hasWorld && minerAddress == [] ==> !Mines(r) && r.timer == Some(settings.miningInterval)
    ensures hasWorld && minerAddress == [] ==> r == st.(minerAddress := [], timer := Some(settings.miningInterval))
  {
    if !hasWorld || minerAddress != [] then st
    else st.(minerAddress := minerAddress, timer := Some(settings.miningInterval))
  }

  /** StopMining: with a world, the timer is cleared and the address emptied. */
  function Stop(hasWorld: bool, st: MiningState): (r: MiningState)
    ensures hasWorld ==> !Mines(r) && r.timer.None?
    ensures !hasWorld ==> r == st
    ensures r.difficulty == st.difficulty && r.events == st.events
  {
    if !hasWorld then st else st.(minerAddress := "", timer := None)
  }

  /** SetMiningDifficulty: the new difficulty, raised to the floor if below it. */
  function SetDifficulty(st: MiningState, newDifficulty: real): (r: MiningState)
    ensures r.difficulty >= MinDifficulty && r.difficulty >= newDifficulty
    ensures r.difficulty == newDifficulty || r.difficulty == MinDifficulty
    ensures r.minerAddress == st.minerAddress && r.timer == st.timer && r.events == st.events
  {
    st.(difficulty := if newDifficulty >= MinDifficulty then newDifficulty else MinDifficulty)
  }

  /** OnMiningTick: a reward is announced only while an address is set. */
  function Tick(st: MiningState, reward: real, blockHash: string): (r: MiningState)
    ensures !Mines(st) ==> r == st
    ensures Mines(st) ==> r.events == st.events + [MiningComplete(reward, blockHash)]
    ensures r.minerAddress == st.minerAddress && r.difficulty == st.difficulty && r.timer == st.timer
  {
    if st.minerAddress == [] then st else st.(events := st.events + [MiningComplete(reward, blockHash)])
  }

  /** BeginPlay: the difficulty is reset to 1, then mining is started for "auto_miner" if auto-start is on. */
  function Begin(hasWorld: bool, settings: Settings, st: MiningState): (r: MiningState)
    ensures r.difficulty == 1.0 && r.events == st.events
    ensures r.minerAddress == st.minerAddress && r.timer == st.timer
  {
    var reset := st.(difficulty := 1.0);
    if settings.autoStartMining then Start(hasWorld, settings, reset, "auto_miner") else reset
  }

  /** The calls a caller or the engine can make on the component. */
  datatype Call =
    | BeginPlay
    | EndPlay
    | StartMining(minerAddress: string)
    | StopMining
    | SetMiningDifficulty(newDifficulty: real)
    | MiningTick(reward: real, blockHash: string)

  function Apply(hasWorld: bool, settings: Settings, st: MiningState, call: Call): MiningState {
    match call
    case BeginPlay => Begin(hasWorld, settings, st)
    case EndPlay => Stop(hasWorld, st)
    case StartMining(a) => Start(hasWorld, settings, st, a)
    case StopMining => Stop(hasWorld, st)
    case SetMiningDifficulty(d) => SetDifficulty(st, d)
    case MiningTick(reward, hash) => Tick(st, reward, hash)
  }

  function Run(hasWorld: bool, settings: Settings, st: MiningState, calls: seq<Call>): MiningState
    decreases |calls|
  {
    if |calls| == 0 then st else Run(hasWorld, settings, Apply(hasWorld, settings, st, calls[0]), calls[1..])
  }

  /**
   * Whatever the calls, a component that is not mining never starts: IsMining
   * stays false and no reward is ever announced.
   */
  lemma {:induction false} NeverMines(hasWorld: bool, settings: Settings, st: MiningState, calls: seq<Call>)
    requires !Mines(st)
    ensures !Mines(Run(hasWorld, settings, st, calls))
    ensures Run(hasWorld, settings, st, calls).events == st.events
    decreases |calls|
  {
    if |calls| > 0 {
      var next := Apply(hasWorld, settings, st, calls[0]);
      assert !Mines(next) && next.events == st.events;
      NeverMines(hasWorld, settings, next, calls[1..]);
    }
  }

  /** The difficulty never drops below the floor once it is at or above it, as it is from construction on. */
  lemma {:induction false} DifficultyStaysAboveFloor(hasWorld: bool, settings: Settings, st: MiningState, calls: seq<Call>)
    requires st.difficulty >= MinDifficulty
    ensures Run(hasWorld, settings, st, calls).difficulty >= MinDifficulty
    decreases |calls|
  {
    if |calls| > 0 {
      var next := Apply(hasWorld, settings, st, calls[0]);
      assert next.difficulty >= MinDifficulty;
      DifficultyStaysAboveFloor(hasWorld, settings, next, calls[1..]);
    }
  }

  /** UInterverseMiningComponent. `hasWorld` says whether GetWorld() finds a world. */
  class MiningComponent {
    const hasWorld: bool
    var miningPower: real
    var miningInterval: real
    var autoStartMining: bool
    var currentMinerAddress: string
    var currentDifficulty: real
    /** The mining timer's period while it is armed. */
    var miningTimer: Option<real>
    /** The OnMiningComplete broadcasts, in order. */
    var events: seq<MiningEvent>

    function Config(): Settings
      reads this
    {
      Settings(miningPower, miningInterval, autoStartMining)
    }

    function State(): MiningState
      reads this
    {
      MiningState(currentMinerAddress, currentDifficulty, miningTimer, events)
    }

    constructor (hasWorld: bool)
      ensures this.hasWorld == hasWorld && Config() == DefaultSettings && State() == Initial
    {
      this.hasWorld := hasWorld;
      miningPower := 1.0;
      miningInterval := 60.0;
      currentDifficulty := 1.0;
      autoStartMining := false;
      currentMinerAddress := "";
      miningTimer := None;
      events := [];
    }

    method BeginPlay()
      modifies this
      ensures State() == Begin(hasWorld, Config(), old(State())) && Config() == old(Config())
    {
      currentDifficulty := 1.0;
      if autoStartMining {
        StartMining("auto_miner");
      }
    }

    method EndPlay()
      modifies this
      ensures State() == Stop(hasWorld, old(State())) && Config() == old(Config())
    {
      StopMining();
    }

    method StartMining(minerAddress: string)
      modifies this
      ensures State() == Start(hasWorld, Config(), old(State()), minerAddress) && Config() == old(Config())
    {
      if !hasWorld || minerAddress != [] {
        return;
      }
      currentMinerAddress := minerAddress;
      miningTimer := Some(miningInterval);
    }

    method StopMining()
      modifies this
      ensures State() == Stop(hasWorld, old(State())) && Config() == old(Config())
    {
      if !hasWorld {
        return;
      }
      miningTimer := None;
      currentMinerAddress := "";
    }

    function IsMining(): (b: bool)
      reads this
      ensures b <==> Mines(State())
    {
      currentMinerAddress != []
    }

    method SetMiningDifficulty(newDifficulty: real)
      modifies this
      ensures State() == SetDifficulty(old(State()), newDifficulty) && Config() == old(Config())
    {
      currentDifficulty := if newDifficulty >= MinDifficulty then newDifficulty else MinDifficulty;
    }

    /** OnMiningTick; `reward` is CalculateReward's result and `blockHash` the fresh GUID. */
    method OnMiningTick(reward: real, blockHash: string)
      modifies this
      ensures State() == Tick(old(State()), reward, blockHash) && Config() == old(Config())
    {
      if currentMinerAddress == [] {
        return;
      }
      events := events + [MiningComplete(reward, blockHash)];
    }
  }
}
