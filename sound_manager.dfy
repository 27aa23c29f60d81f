/** `Cue` and `SoundManager`: a dictionary of cues by trimmed ID, and an ordered
    list of the sound instances started from them. Playing appends an
    instance; the pause, resume, stop and volume controls act on the first
    instance with a matching ID whose state allows the control. */
module Sound {
  import opened Common
  import opened Events

  /** Whitespace as `String.Trim` removes it, restricted to the ASCII controls and space. */
  predicate IsWhiteSpace(c: char)
  {
    c == ' ' || c == '\t' || c == '\n' || c == '\r' || c as int == 11 || c as int == 12
  }

  /** `s` with its leading whitespace removed. */
  function TrimStart(s: string): (r: string)
    ensures |r| <= |s| && r == s[|s| - |r|..]
    ensures forall i :: 0 <= i < |s| - |r| ==> IsWhiteSpace(s[i])
    ensures |r| > 0 ==> !IsWhiteSpace(r[0])
    decreases |s|
  {
    if |s| > 0 && IsWhiteSpace(s[0]) then TrimStart(s[1..]) else s
  }

  /** `s` with its trailing whitespace removed. */
  function TrimEnd(s: string): (r: string)
    ensures |r| <= |s| && r == s[..|r|]
    ensures forall i :: |r| <= i < |s| ==> IsWhiteSpace(s[i])
    ensures |r| > 0 ==> !IsWhiteSpace(r[|r| - 1])
    decreases |s|
  {
    if |s| > 0 && IsWhiteSpace(s[|s| - 1]) then TrimEnd(s[..|s| - 1]) else s
  }

  /** `s.Trim()`: neither starts nor ends with whitespace (`TrimSlice` says what is cut off). */
  function Trim(s: string): (r: string)
    ensures |r| <= |s|
    ensures |r| > 0 ==> !IsWhiteSpace(r[0]) && !IsWhiteSpace(r[|r| - 1])
  {
    TrimEnd(TrimStart(s))
  }

  /** The trimmed string is the slice of `s` starting at `k`, and everything cut
      off before and after it is whitespace. */
  lemma TrimSlice(s: string) returns (k: nat)
    ensures k + |Trim(s)| <= |s| && Trim(s) == s[k..k + |Trim(s)|]
    ensures forall i :: 0 <= i < k ==> IsWhiteSpace(s[i])
    ensures forall i :: k + |Trim(s)| <= i < |s| ==> IsWhiteSpace(s[i])
  {
    var t := TrimStart(s);
    k := |s| - |t|;
    assert t == s[k..];
    var r := TrimEnd(t);
    assert r == t[..|r|] == s[k..k + |r|];
    forall i | k + |r| <= i < |s|
      ensures IsWhiteSpace(s[i])
    {
      assert s[i] == t[i - k];
    }
  }

  /** Trimming twice is trimming once, so looking a trimmed ID up again finds the same cue. */
  lemma TrimIdempotent(s: string)
    ensures Trim(Trim(s)) == Trim(s)
  {
    var t := Trim(s);
    assert TrimStart(t) == t;
    assert TrimEnd(t) == t;
  }

  /** `Cue.NO_LIMIT_SPECIFIED`. */
  const NoLimitSpecified: int := -1

  /** The `MaxPlayCount` setter: a positive count is kept, anything else becomes 1. */
  function ValidPlayCount(v: int): (r: int)
    ensures r > 0
    ensures v > 0 ==> r == v
    ensures v <= 0 ==> r == 1
  {
    if v > 0 then v else 1
  }

  /** The `TimeToLiveInMs` and `MinTimeSinceLastPlayedInMs` setters: a positive
      time is kept, anything else means no limit. */
  function ValidTimeLimit(v: int): (r: int)
    ensures r > 0 || r == NoLimitSpecified
    ensures v > 0 ==> r == v
    ensures v <= 0 ==> r == NoLimitSpecified
  {
    if v > 0 then v else NoLimitSpecified
  }

  /** The `Volume` setter: a value in [0, 1] is kept, any other is replaced by 1 (not clamped). */
  function ValidVolume(v: real): (r: real)
    ensures 0.0 <= r <= 1.0
    ensures 0.0 <= v <= 1.0 ==> r == v
    ensures !(0.0 <= v <= 1.0) ==> r == 1.0
  {
    if 0.0 <= v <= 1.0 then v else 1.0
  }

  /** The `Pitch` and `Pan` setters: a value in [-1, 1] is kept, any other is replaced by 0. */
  function ValidSigned(v: real): (r: real)
    ensures -1.0 <= r <= 1.0
    ensures -1.0 <= v <= 1.0 ==> r == v
    ensures !(-1.0 <= v <= 1.0) ==> r == 0.0
  {
    if -1.0 <= v <= 1.0 then v else 0.0
  }

  /** Setting a property to the value read back from it changes nothing. */
  lemma SettersIdempotent(n: int, t: int, v: real, s: real)
    ensures ValidPlayCount(ValidPlayCount(n)) == ValidPlayCount(n)
    ensures ValidTimeLimit(ValidTimeLimit(t)) == ValidTimeLimit(t)
    ensures ValidVolume(ValidVolume(v)) == ValidVolume(v)
    ensures ValidSigned(ValidSigned(s)) == ValidSigned(s)
  {
  }

  /** `MathHelper.Clamp`. */
  function Clamp(v: real, lo: real, hi: real): (r: real)
    requires lo <= hi
    ensures lo <= r <= hi
    ensures lo <= v <= hi ==> r == v
    ensures v < lo ==> r == lo
    ensures v > hi ==> r == hi
  {
    if v < lo then lo else if v > hi then hi else v
  }

  /** A `SoundEffect` asset, by name. */
  datatype SoundEffect = SoundEffect(name: string)

  /** `SoundCategoryType`, stored and never read by this core. */
  datatype SoundCategoryType = SoundCategoryType(name: string)

  class Cue {
    const id: string
    const soundEffect: SoundEffect
    var soundCategoryType: SoundCategoryType
    /** Volume, pitch and pan, in that order. */
    var volumePitchPan: Vec3
    var isLooped: bool
    var maxPlayCount: int
    var timeToLiveInMs: int
    var minTimeSinceLastPlayedInMs: int

    /** The constructor trims the ID and stores the rest as given, unvalidated;
        the three limits keep their default of 0. */
    constructor (id: string, soundEffect: SoundEffect, soundCategoryType: SoundCategoryType,
                 volumePitchPan: Vec3, isLooped: bool)
      ensures this.id == Trim(id) && this.soundEffect == soundEffect
      ensures this.soundCategoryType == soundCategoryType && this.volumePitchPan == volumePitchPan
      ensures this.isLooped == isLooped
      ensures maxPlayCount == 0 && timeToLiveInMs == 0 && minTimeSinceLastPlayedInMs == 0
    {
      this.id := Trim(id);
      this.soundEffect := soundEffect;
      this.soundCategoryType := soundCategoryType;
      this.volumePitchPan := volumePitchPan;
      this.isLooped := isLooped;
      maxPlayCount := 0;
      timeToLiveInMs := 0;
      minTimeSinceLastPlayedInMs := 0;
    }

    method SetMaxPlayCount(value: int)
      modifies this`maxPlayCount
      ensures maxPlayCount == ValidPlayCount(value)
    {
      maxPlayCount := if value > 0 then value else 1;
    }

    method SetTimeToLiveInMs(value: int)
      modifies this`timeToLiveInMs
      ensures timeToLiveInMs == ValidTimeLimit(value)
    {
      timeToLiveInMs := if value > 0 then value else NoLimitSpecified;
    }

    method SetMinTimeSinceLastPlayedInMs(value: int)
      modifies this`minTimeSinceLastPlayedInMs
      ensures minTimeSinceLastPlayedInMs == ValidTimeLimit(value)
    {
      minTimeSinceLastPlayedInMs := if value > 0 then value else NoLimitSpecified;
    }

    method SetVolume(value: real)
      modifies this`volumePitchPan
      ensures volumePitchPan == old(volumePitchPan).(x := ValidVolume(value))
    {
      volumePitchPan := volumePitchPan.(x := if 0.0 <= value && value <= 1.0 then value else 1.0);
    }

    method SetPitch(value: real)
      modifies this`volumePitchPan
      ensures volumePitchPan == old(volumePitchPan).(y := ValidSigned(value))
    {
      volumePitchPan := volumePitchPan.(y := if -1.0 <= value && value <= 1.0 then value else 0.0);
    }

    method SetPan(value: real)
      modifies this`volumePitchPan
      ensures volumePitchPan == old(volumePitchPan).(z := ValidSigned(value))
    {
      volumePitchPan := volumePitchPan.(z := if -1.0 <= value && value <= 1.0 then value else 0.0);
    }
  }

  /** `SoundState` of a `SoundEffectInstance`. */
  datatype SoundState = Playing | Paused | Stopped

  /** An entry of the instance list: the trimmed ID it was played under and the
      instance's properties; `spatial` records that `Apply3D` was called on it. */
  datatype Instance = Instance(key: string, state: SoundState, volume: real, pitch: real, pan: real,
                               looped: bool, spatial: bool)

  /** A fresh instance of a cue's sound effect, already playing. */
  function Started(c: Cue, key: string, spatial: bool): Instance
    reads c
  {
    Instance(key, Playing, c.volumePitchPan.x, c.volumePitchPan.y, c.volumePitchPan.z, c.isLooped, spatial)
  }

  /** The controls that search the instance list for their first match. */
  datatype Control = PauseControl | ResumeControl | StopControl | SetVolumeControl(volume: real)
                   | ChangeVolumeControl(delta: real)

  /** Whether the loop of a control acts on this entry: the ID must match, then
      the state (and, for a volume change, the new volume) must allow it. */
  predicate Eligible(i: Instance, key: string, c: Control)
  {
    i.key == key &&
    match c
    case PauseControl => i.state == Playing
    case ResumeControl => i.state == Paused
    case StopControl => i.state == Playing
    case SetVolumeControl(_) => i.state == Playing || i.state == Paused
    case ChangeVolumeControl(d) => (i.state == Playing || i.state == Paused) && 0.0 <= i.volume + d <= 1.0
  }

  /** The first entry a control acts on, if any. */
  function FirstEligible(s: seq<Instance>, key: string, c: Control): (r: Option<nat>)
    ensures r.Some? ==> r.value < |s| && Eligible(s[r.value], key, c)
    ensures r.Some? ==> forall j :: 0 <= j < r.value ==> !Eligible(s[j], key, c)
    ensures r.None? <==> forall j :: 0 <= j < |s| ==> !Eligible(s[j], key, c)
    decreases |s|
  {
    if |s| == 0 then None
    else if Eligible(s[0], key, c) then Some(0)
    else match FirstEligible(s[1..], key, c)
         case None => None
         case Some(k) => Some(k + 1)
  }

  /** What a control other than stop does to the entry it acts on. */
  function Apply(i: Instance, c: Control): Instance
    requires !c.StopControl?
  {
    match c
    case PauseControl => i.(state := Paused)
    case ResumeControl => i.(state := Playing)
    case SetVolumeControl(v) => i.(volume := v)
    case ChangeVolumeControl(d) => i.(volume := i.volume + d)
  }

  /** The instance list after a control: unchanged when nothing matches;
      otherwise the first match is changed, or, for stop, removed. */
  function Controlled(s: seq<Instance>, key: string, c: Control): seq<Instance>
  {
    match FirstEligible(s, key, c)
    case None => s
    case Some(i) => if c.StopControl? then s[..i] + s[i + 1..] else s[i := Apply(s[i], c)]
  }

  /** A control other than stop changes exactly the first matching entry, in place. */
  lemma ControlChangesOnlyFirstMatch(s: seq<Instance>, key: string, c: Control)
    requires !c.StopControl?
    ensures |Controlled(s, key, c)| == |s|
    ensures forall j :: 0 <= j < |s| && Some(j) != FirstEligible(s, key, c) ==> Controlled(s, key, c)[j] == s[j]
    ensures FirstEligible(s, key, c).Some? ==>
              var i := FirstEligible(s, key, c).value;
              Controlled(s, key, c)[i] == Apply(s[i], c) && Controlled(s, key, c)[i].key == key
  {
  }

  /** Stop removes the first playing entry with the ID and keeps the others in order. */
  lemma StopRemovesFirstPlaying(s: seq<Instance>, key: string)
    ensures FirstEligible(s, key, StopControl).None? ==> Controlled(s, key, StopControl) == s
    ensures FirstEligible(s, key, StopControl).Some? ==>
              var i := FirstEligible(s, key, StopControl).value;
              Controlled(s, key, StopControl) == s[..i] + s[i + 1..] &&
              |Controlled(s, key, StopControl)| == |s| - 1 &&
              multiset(Controlled(s, key, StopControl)) + multiset{s[i]} == multiset(s) &&
              s[i].key == key && s[i].state == Playing
  {
    if FirstEligible(s, key, StopControl).Some? {
      RemoveAtMultiset(s, FirstEligible(s, key, StopControl).value);
    }
  }

  lemma RemoveAtMultiset(s: seq<Instance>, i: nat)
    requires i < |s|
    ensures multiset(s[..i] + s[i + 1..]) + multiset{s[i]} == multiset(s)
  {
    assert s == s[..i] + [s[i]] + s[i + 1..];
  }

  /** A volume change never leaves the changed instance outside [0, 1]. */
  lemma ChangeVolumeStaysAudible(s: seq<Instance>, key: string, d: real)
    ensures FirstEligible(s, key, ChangeVolumeControl(d)).Some? ==>
              var i := FirstEligible(s, key, ChangeVolumeControl(d)).value;
              0.0 <= Controlled(s, key, ChangeVolumeControl(d))[i].volume <= 1.0
  {
  }

  /** Pausing and then resuming an ID restores the list, provided no instance
      with that ID was already paused (else resume would pick that one instead). */
  lemma PauseThenResume(s: seq<Instance>, key: string)
    requires forall j :: 0 <= j < |s| && s[j].key == key ==> s[j].state != Paused
    ensures Controlled(Controlled(s, key, PauseControl), key, ResumeControl) == s
  {
    var p := Controlled(s, key, PauseControl);
    match FirstEligible(s, key, PauseControl)
    case None =>
      assert p == s;
      assert FirstEligible(p, key, ResumeControl).None?;
    case Some(i) =>
      assert p == s[i := s[i].(state := Paused)];
      assert Eligible(p[i], key, ResumeControl);
      assert FirstEligible(p, key, ResumeControl) == Some(i);
      assert p[i := p[i].(state := Playing)] == s;
  }

  /** The dictionary after `Add`: a cue whose ID is already present is ignored. */
  function Added(d: map<string, Cue>, c: Cue): (r: map<string, Cue>)
    reads c
    ensures c.id in r
    ensures c.id in d ==> r == d
    ensures c.id !in d ==> r == d[c.id := c]
  {
    if c.id in d then d else d[c.id := c]
  }

  /** The first cue registered under an ID wins; later ones are ignored. */
  lemma FirstRegistrationWins(d: map<string, Cue>, a: Cue, b: Cue)
    requires a.id == b.id
    ensures Added(Added(d, a), b) == Added(d, a)
    ensures a.id !in d ==> Added(Added(d, a), b)[a.id] == a
  {
  }

  /** A trimmed ID plays exactly like the untrimmed one. */
  lemma PlayKeyIsTrimmed(d: map<string, Cue>, id: string)
    ensures (Trim(Trim(id)) in d) == (Trim(id) in d)
  {
    TrimIdempotent(id);
  }

  class SoundManager {
    var dictionary: map<string, Cue>
    var instances: seq<Instance>
    /** `SoundEffect.MasterVolume`, a process-wide setting. */
    var masterVolume: real
    var status: Status
    const dispatcher: EventDispatcher

    constructor (status: Status, dispatcher: EventDispatcher)
      ensures dictionary == map[] && instances == [] && masterVolume == 1.0
      ensures this.status == status && this.dispatcher == dispatcher
    {
      dictionary := map[];
      instances := [];
      masterVolume := 1.0;
      this.status := status;
      this.dispatcher := dispatcher;
    }

    /** Listens to the Sound category only. */
    method SubscribeToEvents()
      modifies dispatcher`subscriptions
      ensures dispatcher.subscriptions == old(dispatcher.subscriptions) + [Subscription(SoundCategory, SoundHandler)]
    {
      dispatcher.Subscribe(SoundCategory, SoundHandler);
    }

    method Add(cue: Cue)
      modifies this`dictionary
      ensures dictionary == Added(old(dictionary), cue)
    {
      if cue.id !in dictionary {
        dictionary := dictionary[cue.id := cue];
      }
    }

    method SetMasterVolume(value: real)
      modifies this`masterVolume
      ensures masterVolume == Clamp(value, 0.0, 1.0)
    {
      masterVolume := Clamp(value, 0.0, 1.0);
    }

    method ChangeMasterVolume(delta: real)
      modifies this`masterVolume
      ensures masterVolume == Clamp(old(masterVolume) + delta, 0.0, 1.0)
    {
      masterVolume := Clamp(masterVolume + delta, 0.0, 1.0);
    }

    /** `Play2D`: a known (trimmed) ID appends one playing instance of its cue; an
        unknown one changes nothing. */
    method Play2D(id: string)
      modifies this`instances
      ensures Trim(id) in dictionary ==>
                instances == old(instances) + [Started(dictionary[Trim(id)], Trim(id), false)]
      ensures Trim(id) !in dictionary ==> instances == old(instances)
    {
      var key := Trim(id);
      if key in dictionary {
        var cue := dictionary[key];
        instances := instances + [Instance(key, Playing, cue.volumePitchPan.x, cue.volumePitchPan.y,
                                           cue.volumePitchPan.z, cue.isLooped, false)];
      }
    }

    /** `Play3D`: as `Play2D`, with the listener and emitter applied to the instance. */
    method Play3D(id: string, listener: Param, emitter: Param)
      modifies this`instances
      ensures Trim(id) in dictionary ==>
                instances == old(instances) + [Started(dictionary[Trim(id)], Trim(id), true)]
      ensures Trim(id) !in dictionary ==> instances == old(instances)
    {
      var key := Trim(id);
      if key in dictionary {
        var cue := dictionary[key];
        instances := instances + [Instance(key, Playing, cue.volumePitchPan.x, cue.volumePitchPan.y,
                                           cue.volumePitchPan.z, cue.isLooped, true)];
      }
    }

    /** The `foreach` loop with early return shared by `Pause`, `Resume`,
        `SetVolume` and `ChangeVolume`. */
    method ControlFirst(key: string, c: Control) returns (found: bool)
      requires !c.StopControl?
      modifies this`instances
      ensures found <==> FirstEligible(old(instances), key, c).Some?
      ensures instances == Controlled(old(instances), key, c)
    {
      var i := 0;
      while i < |instances|
        invariant 0 <= i <= |instances| && instances == old(instances)
        invariant forall j :: 0 <= j < i ==> !Eligible(instances[j], key, c)
      {
        if instances[i].key == key && Eligible(instances[i], key, c) {
          instances := instances[i := Apply(instances[i], c)];
          return true;
        }
        i := i + 1;
      }
      return false;
    }

    method Pause(id: string) returns (found: bool)
      modifies this`instances
      ensures found <==> FirstEligible(old(instances), Trim(id), PauseControl).Some?
      ensures instances == Controlled(old(instances), Trim(id), PauseControl)
    {
      found := ControlFirst(Trim(id), PauseControl);
    }

    method Resume(id: string) returns (found: bool)
      modifies this`instances
      ensures found <==> FirstEligible(old(instances), Trim(id), ResumeControl).Some?
      ensures instances == Controlled(old(instances), Trim(id), ResumeControl)
    {
      found := ControlFirst(Trim(id), ResumeControl);
    }

    method SetVolume(id: string, volume: real) returns (found: bool)
      modifies this`instances
      ensures found <==> FirstEligible(old(instances), Trim(id), SetVolumeControl(volume)).Some?
      ensures instances == Controlled(old(instances), Trim(id), SetVolumeControl(volume))
    {
      found := ControlFirst(Trim(id), SetVolumeControl(volume));
    }

    method ChangeVolume(id: string, delta: real) returns (found: bool)
      modifies this`instances
      ensures found <==> FirstEligible(old(instances), Trim(id), ChangeVolumeControl(delta)).Some?
      ensures instances == Controlled(old(instances), Trim(id), ChangeVolumeControl(delta))
    {
      found := ControlFirst(Trim(id), ChangeVolumeControl(delta));
    }

    /** `Stop`: an index loop that removes the first playing entry with the ID and breaks. */
    method Stop(id: string) returns (found: bool)
      modifies this`instances
      ensures found <==> FirstEligible(old(instances), Trim(id), StopControl).Some?
      ensures instances == Controlled(old(instances), Trim(id), StopControl)
    {
      var key := Trim(id);
      found := false;
      var i := 0;
      while i < |instances|
        invariant 0 <= i <= |instances|
        invariant !found ==> instances == old(instances)
        invariant !found ==> forall j :: 0 <= j < i ==> !Eligible(instances[j], key, StopControl)
        invariant found ==> instances == Controlled(old(instances), key, StopControl) &&
                            FirstEligible(old(instances), key, StopControl).Some?
        decreases if found then 0 else |instances| - i
      {
        if instances[i].key == key && instances[i].state == Playing {
          instances := instances[..i] + instances[i + 1..];
          found := true;
          break;
        }
        i := i + 1;
      }
    }

    /** `HandleEvent` dispatches on the action alone: OnPlay2D plays its first
        parameter, OnPlay3D plays it with the listener and emitter that follow.
        The parameters are cast without a check, so their shape is required. */
    method HandleEvent(e: Event)
      requires e.action == OnPlay2D ==> |e.params| >= 1 && e.params[0].PString?
      requires e.action == OnPlay3D ==> |e.params| >= 3 && e.params[0].PString?
      modifies this`instances
      ensures e.action == OnPlay2D ==>
                var key := Trim(e.params[0].s);
                instances == old(instances) + (if key in dictionary then [Started(dictionary[key], key, false)] else [])
      ensures e.action == OnPlay3D ==>
                var key := Trim(e.params[0].s);
                instances == old(instances) + (if key in dictionary then [Started(dictionary[key], key, true)] else [])
      ensures e.action != OnPlay2D && e.action != OnPlay3D ==> instances == old(instances)
    {
      if e.action == OnPlay2D {
        Play2D(e.params[0].s);
      } else if e.action == OnPlay3D {
        Play3D(e.params[0].s, e.params[1], e.params[2]);
      }
    }
  }
}
