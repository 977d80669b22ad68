/** Edge clients pull signed, versioned config bundles over an unreliable network. */
module ConfigPull {
  import opened Options

  /** The steerable settings, and the version that the server assigns. */
  datatype Bundle = Bundle(version: int, settings: string)

  /** An ideal HMAC: a tag names the bundle and the key it was made with. */
  datatype Tag = Mac(signed: Bundle, key: string)

  datatype Wire = Wire(config: Bundle, signature: Tag, algorithm: string)

  datatype Reply = Reply(serverVersion: int, needConfig: bool)

  // ---- The server.

  class ControlState {
    var version: int
    var bundle: Bundle

    constructor (initial: string)
      ensures version == 1 && bundle == Bundle(1, initial)
    {
      version, bundle := 1, Bundle(1, initial);
    }

    method Bump(settings: string) returns (v: int)
      modifies this
      ensures v == version == old(version) + 1 && bundle == Bundle(version, settings)
    {
      version := version + 1;
      bundle := Bundle(version, settings);
      v := version;
    }

    method Heartbeat(configVersion: int) returns (r: Reply)
      ensures r == Beat(version, configVersion)
      ensures r.serverVersion == version && (r.needConfig <==> configVersion != version)
    {
      r := Reply(version, configVersion != version);
    }

    method Config(token: string) returns (w: Wire)
      ensures Verifies(w, token) && w.config == bundle
    {
      w := Wire(bundle, Mac(bundle, token), "hmac-sha256");
    }
  }

  function Beat(version: int, configVersion: int): Reply {
    Reply(version, configVersion != version)
  }

  // ---- The client.

  predicate Verifies(w: Wire, token: string) {
    w.algorithm == "hmac-sha256" && w.signature == Mac(w.config, token)
  }

  /** Verified, and not a step back. */
  predicate Acceptable(w: Wire, token: string, applied: int) {
    Verifies(w, token) && w.config.version >= applied
  }

  class Control {
    const token: string
    var applied: int
    var config: Option<Bundle>
    var healthy: bool

    constructor (token: string)
      ensures this.token == token && applied == 0 && config == None
    {
      this.token := token;
      applied, config, healthy := 0, None, false;
    }

    method FetchAndApply(answer: Option<Wire>) returns (ok: bool)
      modifies this`applied, this`config
      ensures ok <==> answer.Some? && Acceptable(answer.value, token, old(applied))
      ensures ok <==> (answer.Some? && answer.value.algorithm == "hmac-sha256"
        && answer.value.signature == Mac(answer.value.config, token) && answer.value.config.version >= old(applied))
      ensures ok ==> applied == answer.value.config.version && config == Some(answer.value.config)
      ensures !ok ==> applied == old(applied) && config == old(config)
    {
      if answer.None? {
        return false;
      }
      var w := answer.value;
      if w.algorithm != "hmac-sha256" || w.signature != Mac(w.config, token) || w.config.version < applied {
        return false;
      }
      applied, config := w.config.version, Some(w.config);
      ok := true;
    }

    /** One round: heartbeat, then a fetch if the server asks for one. */
    method Round(beat: Option<Reply>, answer: Option<Wire>)
      modifies this
      ensures healthy <==>
        beat.Some? && (!beat.value.needConfig || (answer.Some? && Acceptable(answer.value, token, old(applied))))
      ensures applied >= old(applied)
      ensures if healthy && beat.value.needConfig
        then Verifies(answer.value, token) && config == Some(answer.value.config) && applied == config.value.version
        else config == old(config) && applied == old(applied)
    {
      healthy := false;
      if beat.None? {
        return;
      }
      if !beat.value.needConfig {
        healthy := true;
        return;
      }
      healthy := FetchAndApply(answer);
    }
  }

  // ---- The system within one server lifetime.

  datatype Phase = Idle | AwaitingBeat | BeatAnswered(reply: Reply) | Fetching

  /** issued lists every bundle the server has had; tags holds every signature it has given out,
      to this client or to others. */
  datatype World = World(
    version: int, bundle: Bundle, issued: seq<Bundle>, tags: set<Tag>,
    token: string, applied: int, config: Option<Bundle>, phase: Phase)

  datatype Step =
    | Push(settings: string)
    | SendBeat | AnswerBeat | BeatArrives
    | GiveConfig(toToken: string)     // the server signs its bundle for some client
    | ConfigArrives(wire: Wire)       // genuine, replayed, misdirected or forged
    | GiveUp                          // a request or reply was lost

  function Init(token: string, settings: string): World {
    World(1, Bundle(1, settings), [Bundle(1, settings)], {}, token, 0, None, Idle)
  }

  /** The network can present what the server signed; it cannot make a tag under the client's key. */
  predicate CanPresent(w: World, wire: Wire) {
    wire.signature.key == w.token ==> wire.signature in w.tags
  }

  predicate Enabled(w: World, step: Step) {
    match step
    case Push(_) => true
    case SendBeat => w.phase.Idle?
    case AnswerBeat => w.phase.AwaitingBeat?
    case BeatArrives => w.phase.BeatAnswered?
    case GiveConfig(_) => true
    case ConfigArrives(wire) => w.phase.Fetching? && CanPresent(w, wire)
    case GiveUp => !w.phase.Idle?
  }

  function Next(w: World, step: Step): World
    requires Enabled(w, step)
  {
    match step
    case Push(settings) =>
      var b := Bundle(w.version + 1, settings);
      w.(version := w.version + 1, bundle := b, issued := w.issued + [b])
    case SendBeat => w.(phase := AwaitingBeat)
    case AnswerBeat => w.(phase := BeatAnswered(Beat(w.version, w.applied)))
    case BeatArrives => w.(phase := if w.phase.reply.needConfig then Fetching else Idle)
    case GiveConfig(token) => w.(tags := w.tags + {Mac(w.bundle, token)})
    case ConfigArrives(wire) =>
      if Acceptable(wire, w.token, w.applied)
      then w.(applied := wire.config.version, config := Some(wire.config), phase := Idle)
      else w.(phase := Idle)
    case GiveUp => w.(phase := Idle)
  }

  ghost predicate IsRun(w: World, steps: seq<Step>)
    decreases |steps|
  {
    steps == [] || (Enabled(w, steps[0]) && IsRun(Next(w, steps[0]), steps[1..]))
  }

  ghost function After(w: World, steps: seq<Step>): World
    requires IsRun(w, steps)
    decreases |steps|
  {
    if steps == [] then w else After(Next(w, steps[0]), steps[1..])
  }

  ghost predicate IssuedBundle(w: World, b: Bundle) {
    1 <= b.version <= |w.issued| && w.issued[b.version - 1] == b
  }

  ghost predicate Inv(w: World) {
    && w.version == |w.issued| && IssuedBundle(w, w.bundle) && w.bundle.version == w.version
    && (forall i :: 0 <= i < |w.issued| ==> w.issued[i].version == i + 1)
    && (forall t :: t in w.tags ==> IssuedBundle(w, t.signed))
    && (w.config.None? ==> w.applied == 0)
    && (w.config.Some? ==> IssuedBundle(w, w.config.value) && w.config.value.version == w.applied)
    && (w.phase.BeatAnswered? && !w.phase.reply.needConfig ==>
        w.phase.reply.serverVersion == w.applied && w.config.Some?)
  }

  lemma StepKeeps(w: World, step: Step)
    requires Inv(w) && Enabled(w, step)
    ensures Inv(Next(w, step)) && w.applied <= Next(w, step).applied && w.issued <= Next(w, step).issued
  {
    var v := Next(w, step);
    if step.Push? {
      forall t | t in v.tags ensures IssuedBundle(v, t.signed) {
        assert IssuedBundle(w, t.signed);
      }
    }
  }

  lemma {:induction false} RunKeeps(w: World, steps: seq<Step>)
    requires Inv(w) && IsRun(w, steps)
    ensures var v := After(w, steps); Inv(v) && w.applied <= v.applied && w.issued <= v.issued
    decreases |steps|
  {
    if steps != [] {
      StepKeeps(w, steps[0]);
      RunKeeps(Next(w, steps[0]), steps[1..]);
    }
  }

  /** On every run, cut anywhere: the client is on a bundle that the server issued under exactly that
      version, never ahead of the server, never behind where it was; and a heartbeat answered with
      "no config needed" finds it on the current bundle. */
  lemma PullSafe(token: string, settings: string, first: seq<Step>, then_: seq<Step>)
    requires IsRun(Init(token, settings), first)
    requires IsRun(After(Init(token, settings), first), then_)
    ensures var w := After(Init(token, settings), first);
      var v := After(w, then_);
      && 0 <= w.applied <= v.applied <= v.version
      && (v.config.Some? ==> IssuedBundle(v, v.config.value) && v.config.value.version == v.applied)
      && (v.config.None? ==> v.applied == 0)
      && (v.phase.AwaitingBeat? && !Beat(v.version, v.applied).needConfig ==> v.config == Some(v.bundle))
      && (v.phase.BeatAnswered? && !v.phase.reply.needConfig ==>
          v.config.Some? && v.config.value.version == v.phase.reply.serverVersion)
  {
    RunKeeps(Init(token, settings), first);
    var w := After(Init(token, settings), first);
    RunKeeps(w, then_);
    var v := After(w, then_);
    assert v.config.Some? ==> IssuedBundle(v, v.config.value);
  }

  /** A bundle that reaches the client under another client's signature is refused. */
  lemma MisdirectedRefused(w: World, wire: Wire)
    requires Enabled(w, ConfigArrives(wire)) && wire.signature.key != w.token
    ensures Next(w, ConfigArrives(wire)) == w.(phase := Idle)
  {
  }

  // ---- One undisturbed round.

  function Signed(w: World): Wire {
    Wire(w.bundle, Mac(w.bundle, w.token), "hmac-sha256")
  }

  function RoundSteps(w: World): seq<Step> {
    [SendBeat, AnswerBeat, BeatArrives] + if w.applied == w.version then []
      else [GiveConfig(w.token), ConfigArrives(Signed(w))]
  }

  /** Nothing happens when the versions agree, and a bundle older than the applied one is refused. */
  function RoundEnd(w: World): World {
    if w.applied == w.version then w
    else
      var t := w.(tags := w.tags + {Mac(w.bundle, w.token)});
      if w.bundle.version >= w.applied then t.(applied := w.bundle.version, config := Some(w.bundle)) else t
  }

  lemma FetchRuns(w: World)
    requires w.phase.Fetching?
    ensures var steps := [GiveConfig(w.token), ConfigArrives(Signed(w))];
      IsRun(w, steps) && (w.applied != w.version ==> After(w, steps) == RoundEnd(w.(phase := Idle)))
  {
    var v := Next(w, GiveConfig(w.token));
    Prepend(v, ConfigArrives(Signed(w)), []);
    Prepend(w, GiveConfig(w.token), [ConfigArrives(Signed(w))]);
    assert [ConfigArrives(Signed(w))] + [] == [ConfigArrives(Signed(w))];
    assert [GiveConfig(w.token)] + [ConfigArrives(Signed(w))] == [GiveConfig(w.token), ConfigArrives(Signed(w))];
  }

  lemma RoundRuns(w: World)
    requires w.phase.Idle?
    ensures IsRun(w, RoundSteps(w)) && After(w, RoundSteps(w)) == RoundEnd(w)
  {
    var w1 := Next(w, SendBeat);
    var w2 := Next(w1, AnswerBeat);
    var w3 := Next(w2, BeatArrives);
    var tail := if w.applied == w.version then [] else [GiveConfig(w.token), ConfigArrives(Signed(w))];
    if w.applied != w.version {
      FetchRuns(w3);
      assert w3.(phase := Idle) == w && Signed(w3) == Signed(w);
    }
    Prepend(w2, BeatArrives, tail);
    Prepend(w1, AnswerBeat, [BeatArrives] + tail);
    Prepend(w, SendBeat, [AnswerBeat] + ([BeatArrives] + tail));
    assert RoundSteps(w) == [SendBeat] + ([AnswerBeat] + ([BeatArrives] + tail));
  }

  /** In any world, whatever lifetime the client's bundle comes from, one undisturbed round ends on the
      current bundle if and only if the server's version is ahead or the client is on it already.  Below the
      client's version the fetch is refused as a step back; at it, nothing is fetched. */
  lemma RoundRecoversIff(w: World)
    requires w.phase.Idle? && w.bundle.version == w.version
    ensures IsRun(w, RoundSteps(w))
    ensures After(w, RoundSteps(w)).config == Some(w.bundle) <==> w.version > w.applied || w.config == Some(w.bundle)
  {
    RoundRuns(w);
  }

  /** Within one lifetime that is always so. */
  lemma RoundConverges(w: World)
    requires Inv(w) && w.phase.Idle?
    ensures IsRun(w, RoundSteps(w))
    ensures var v := After(w, RoundSteps(w)); v.config == Some(w.bundle) && v.applied == w.version && v.phase.Idle?
  {
    RoundRuns(w);
  }

  lemma Prepend(w: World, step: Step, steps: seq<Step>)
    requires Enabled(w, step) && IsRun(Next(w, step), steps)
    ensures IsRun(w, [step] + steps) && After(w, [step] + steps) == After(Next(w, step), steps)
  {
    assert ([step] + steps)[1..] == steps;
  }

  // ---- Server restarts.

  /** Versions restart with the server; the client, wherever it is in its round, and the signatures given out
      remain. */
  function Restarted(w: World, settings: string): World {
    w.(version := 1, bundle := Bundle(1, settings), issued := [Bundle(1, settings)])
  }

  datatype Life = Life(settings: string, steps: seq<Step>)

  /** One server lifetime after the other, each with its own default settings. */
  ghost predicate AreLives(w: World, lives: seq<Life>)
    decreases |lives|
  {
    lives == [] ||
    var anew := Restarted(w, lives[0].settings);
    IsRun(anew, lives[0].steps) && AreLives(After(anew, lives[0].steps), lives[1..])
  }

  ghost function AfterLives(w: World, lives: seq<Life>): World
    requires AreLives(w, lives)
    decreases |lives|
  {
    if lives == [] then w
    else AfterLives(After(Restarted(w, lives[0].settings), lives[0].steps), lives[1..])
  }

  /** What holds across lifetimes. */
  ghost predicate Versioned(w: World) {
    w.version >= 1 && w.bundle.version == w.version
    && if w.config.Some? then w.config.value.version == w.applied else w.applied == 0
  }

  lemma {:induction false} RunVersioned(w: World, steps: seq<Step>)
    requires Versioned(w) && IsRun(w, steps)
    ensures Versioned(After(w, steps)) && w.applied <= After(w, steps).applied
    decreases |steps|
  {
    if steps != [] {
      RunVersioned(Next(w, steps[0]), steps[1..]);
    }
  }

  lemma {:induction false} LivesVersioned(w: World, lives: seq<Life>)
    requires Versioned(w) && AreLives(w, lives)
    ensures Versioned(AfterLives(w, lives)) && w.applied <= AfterLives(w, lives).applied
    decreases |lives|
  {
    if lives != [] {
      var anew := Restarted(w, lives[0].settings);
      RunVersioned(anew, lives[0].steps);
      LivesVersioned(After(anew, lives[0].steps), lives[1..]);
    }
  }

  /** Over any number of server lifetimes the client's version never falls, and a client between rounds
      gets back to the current bundle in one undisturbed round if and only if the server has counted past
      it, or the bundle happens to be the one it has. */
  lemma LivesRecoverIff(token: string, settings: string, lives: seq<Life>)
    requires AreLives(Init(token, settings), lives) && AfterLives(Init(token, settings), lives).phase.Idle?
    ensures var w := AfterLives(Init(token, settings), lives);
      && IsRun(w, RoundSteps(w))
      && (After(w, RoundSteps(w)).config == Some(w.bundle) <==> w.version > w.applied || w.config == Some(w.bundle))
      && w.applied <= After(w, RoundSteps(w)).applied
  {
    LivesVersioned(Init(token, settings), lives);
    var w := AfterLives(Init(token, settings), lives);
    RoundRecoversIff(w);
    RunVersioned(w, RoundSteps(w));
  }

  function Pushes(settings: seq<string>): seq<Step> {
    if settings == [] then [] else [Push(settings[0])] + Pushes(settings[1..])
  }

  function LastOf(first: string, settings: seq<string>): string
    decreases |settings|
  {
    if settings == [] then first else LastOf(settings[0], settings[1..])
  }

  lemma {:induction false} PushesRun(w: World, settings: seq<string>)
    requires w.bundle.version == w.version
    ensures IsRun(w, Pushes(settings))
    ensures var v := After(w, Pushes(settings));
      && v.version == v.bundle.version == w.version + |settings| && v.config == w.config && v.applied == w.applied
      && v.bundle.settings == LastOf(w.bundle.settings, settings) && v.phase == w.phase
    decreases |settings|
  {
    if settings != [] {
      PushesRun(Next(w, Push(settings[0])), settings[1..]);
      Prepend(w, Push(settings[0]), Pushes(settings[1..]));
    }
  }

  /** Any pushes, after which a request still under way is given up. */
  function Settling(w: World, settings: seq<string>): seq<Step> {
    Pushes(settings) + if w.phase.Idle? then [] else [GiveUp]
  }

  lemma {:induction false} Join(w: World, first: seq<Step>, then_: seq<Step>)
    requires IsRun(w, first) && IsRun(After(w, first), then_)
    ensures IsRun(w, first + then_) && After(w, first + then_) == After(After(w, first), then_)
    decreases |first|
  {
    if first == [] {
      assert first + then_ == then_;
    } else {
      Join(Next(w, first[0]), first[1..], then_);
      assert first + then_ == [first[0]] + (first[1..] + then_);
      Prepend(w, first[0], first[1..] + then_);
    }
  }

  lemma SettlingRuns(w: World, settings: seq<string>)
    requires w.bundle.version == w.version
    ensures IsRun(w, Settling(w, settings))
    ensures var v := After(w, Settling(w, settings));
      && v.version == v.bundle.version == w.version + |settings| && v.config == w.config && v.applied == w.applied
      && v.bundle.settings == LastOf(w.bundle.settings, settings) && v.phase.Idle?
  {
    PushesRun(w, settings);
    var v := After(w, Pushes(settings));
    if !w.phase.Idle? {
      Prepend(v, GiveUp, []);
      assert [GiveUp] + [] == [GiveUp];
    }
    Join(w, Pushes(settings), if w.phase.Idle? then [] else [GiveUp]);
  }

  /** After a restart in the middle of whatever round and any pushes: the client is back on the current bundle
      after a round exactly when the pushes have passed its version or ended, at its version, on what it has. */
  lemma RestartRecoversIff(w: World, initial: string, settings: seq<string>)
    requires Inv(w) && w.config.Some?
    ensures IsRun(Restarted(w, initial), Settling(w, settings))
    ensures var v := After(Restarted(w, initial), Settling(w, settings));
      && IsRun(v, RoundSteps(v))
      && (After(v, RoundSteps(v)).config == Some(v.bundle) <==>
            |settings| + 1 > w.applied ||
            (|settings| + 1 == w.applied && w.config.value.settings == LastOf(initial, settings)))
  {
    SettlingRuns(Restarted(w, initial), settings);
    var v := After(Restarted(w, initial), Settling(w, settings));
    RoundRecoversIff(v);
    assert v.bundle == Bundle(|settings| + 1, LastOf(initial, settings));
  }

  /** Pushed up to the client's version with other settings, the server reports that nothing is needed,
      and the client stays on the old bundle. */
  lemma RestartHides(w: World, initial: string, settings: seq<string>)
    requires Inv(w) && w.config.Some? && w.applied == |settings| + 1
    requires w.config.value.settings != LastOf(initial, settings)
    ensures IsRun(Restarted(w, initial), Settling(w, settings))
    ensures var v := After(Restarted(w, initial), Settling(w, settings));
      && IsRun(v, RoundSteps(v)) && !Beat(v.version, v.applied).needConfig
      && After(v, RoundSteps(v)).config == w.config != Some(v.bundle)
  {
    SettlingRuns(Restarted(w, initial), settings);
    RoundRuns(After(Restarted(w, initial), Settling(w, settings)));
  }

  /** A heartbeat answered before a restart can ask for a fetch that is answered after it. */
  lemma FetchAcrossRestart(w: World, initial: string)
    requires w.phase.BeatAnswered? && w.phase.reply.needConfig && w.applied <= 1
    ensures var steps := [BeatArrives, GiveConfig(w.token), ConfigArrives(Signed(Restarted(w, initial)))];
      && IsRun(Restarted(w, initial), steps)
      && After(Restarted(w, initial), steps).config == Some(Bundle(1, initial))
  {
    var v := Restarted(w, initial);
    var v1 := Next(v, BeatArrives);
    var wire := Signed(v);
    var v2 := Next(v1, GiveConfig(w.token));
    Prepend(v2, ConfigArrives(wire), []);
    Prepend(v1, GiveConfig(w.token), [ConfigArrives(wire)]);
    Prepend(v, BeatArrives, [GiveConfig(w.token), ConfigArrives(wire)]);
    assert [ConfigArrives(wire)] + [] == [ConfigArrives(wire)];
    assert [GiveConfig(w.token)] + [ConfigArrives(wire)] == [GiveConfig(w.token), ConfigArrives(wire)];
    assert [BeatArrives] + [GiveConfig(w.token), ConfigArrives(wire)]
        == [BeatArrives, GiveConfig(w.token), ConfigArrives(wire)];
  }
}
