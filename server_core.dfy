/**
 * The server core as the source writes it: objects whose lists are updated
 * step by step. Each method is proved to compute exactly the specification
 * in modules Topology, SkeletonSorting, Fusion and Snapshots, and to keep the
 * resolved server lists well formed.
 */
module Server {
  import opened Wrappers
  import opened Geometry
  import opened KinectBase
  import opened JointMapping
  import opened SkeletonSorting
  import opened Fusion
  import opened Snapshots
  import opened Topology

  /** The options the resolver reads, and the server lists it fills in. */
  class MasterSettings {
    /** The individual skeleton slots of the merged-skeleton options. */
    const mergedSkeletonOptions: seq<PerSkeletonSettings>
    const kinectOptionsList: seq<KinectSettings>
    const voiceCommands: seq<VoiceCommand>
    var analogServers: seq<ServerSettings>
    var buttonServers: seq<ServerSettings>
    var textServers: seq<ServerSettings>
    var trackerServers: seq<ServerSettings>
    var imagerServers: seq<ServerSettings>

    constructor (mergedSkeletonOptions: seq<PerSkeletonSettings>, kinectOptionsList: seq<KinectSettings>,
                 voiceCommands: seq<VoiceCommand>)
      ensures this.mergedSkeletonOptions == mergedSkeletonOptions
      ensures this.kinectOptionsList == kinectOptionsList && this.voiceCommands == voiceCommands
      ensures Lists() == NoServers
    {
      this.mergedSkeletonOptions := mergedSkeletonOptions;
      this.kinectOptionsList := kinectOptionsList;
      this.voiceCommands := voiceCommands;
      analogServers, buttonServers, textServers, trackerServers, imagerServers := [], [], [], [], [];
    }

    function Lists(): Servers
      reads this
    {
      Servers(analogServers, buttonServers, textServers, trackerServers, imagerServers)
    }
  }

  /** A VRPN output pose: the wire sensor number and the joint's pose. */
  datatype PoseReport = PoseReport(sensor: int, position: Point3, orientation: Quaternion)

  function PoseOf(j: Joint): PoseReport {
    PoseReport(GetSkeletonSensorNumber(j.jointType), j.position, j.orientation)
  }

  /** The poses sent for a skeleton's joints: one per joint that is not NotTracked, in joint order. */
  function PoseReports(joints: seq<Joint>): (r: seq<PoseReport>)
    ensures |r| <= |joints|
    ensures forall x :: x in r ==> exists j :: j in joints && j.trackingState != NotTracked && x == PoseOf(j)
    ensures forall j :: j in joints && j.trackingState != NotTracked ==> PoseOf(j) in r
    ensures (forall i :: 0 <= i < |joints| ==> joints[i].trackingState == NotTracked) ==> r == []
  {
    if joints == [] then []
    else
      var front := joints[..|joints| - 1];
      var before := PoseReports(front);
      var j := joints[|joints| - 1];
      assert joints == front + [j];
      if j.trackingState != NotTracked then before + [PoseOf(j)] else before
  }

  /** The skeleton lists of the merge buffer's snapshots, in buffer order. */
  function SkeletonLists(data: seq<KinectSkeletonsData>): (r: seq<seq<KinectSkeleton>>)
    reads data
    ensures |r| == |data| && forall i :: 0 <= i < |data| ==> r[i] == data[i].actualSkeletons
  {
    seq(|data|, i reads data requires 0 <= i < |data| => data[i].actualSkeletons)
  }

  /** The list a server type's lookup searches; imagers have none (their lookup always fails). */
  function ListOf(s: Servers, t: ServerType): seq<ServerSettings> {
    match t
    case Analog => s.analogServers
    case Button => s.buttonServers
    case Text => s.textServers
    case Tracker => s.trackerServers
    case Imager => []
  }

  /** The source's lookup loop: the index of the first descriptor with the name. */
  method FindServer(servers: seq<ServerSettings>, name: string) returns (id: Option<nat>)
    ensures id == IndexOfName(servers, name)
  {
    for i := 0 to |servers|
      invariant forall k :: 0 <= k < i ==> servers[k].serverName != name
    {
      if servers[i].serverName == name {
        assert IndexOfName(servers, name) == Some(i);
        return Some(i);
      }
    }
    return None;
  }

  /** One step of the removal loop: the head is put back at the tail unless it is the sensor's. */
  function Rotated(q: seq<KinectSkeletonsData>, id: string): seq<KinectSkeletonsData>
    requires |q| > 0
  {
    if q[0].uniqueID != id then q[1..] + [q[0]] else q[1..]
  }

  /** What is logged when a skeleton's tracker server is not found. */
  function TrackerNotFound(name: string): string {
    "Could not find the ID of the tracking server " + name + "."
  }

  class ServerCore {
    const serverMasterOptions: MasterSettings
    /** The channel and button capacity of the VRPN analog and button servers. */
    const maxChannels: int
    const maxButtons: int
    var feedbackPosition: Option<Point3>
    var mergedSkeletons: seq<MergedSkeleton>
    /** The merge buffer: at most one snapshot per sensor. */
    var perKinectSkeletons: seq<KinectSkeletonsData>

    constructor (serverMasterOptions: MasterSettings, maxChannels: int, maxButtons: int)
      ensures this.serverMasterOptions == serverMasterOptions
      ensures this.maxChannels == maxChannels && this.maxButtons == maxButtons
      ensures feedbackPosition.None? && mergedSkeletons == [] && perKinectSkeletons == []
    {
      this.serverMasterOptions := serverMasterOptions;
      this.maxChannels := maxChannels;
      this.maxButtons := maxButtons;
      feedbackPosition := None;
      mergedSkeletons := [];
      perKinectSkeletons := [];
    }

    function Lists(): Servers
      reads serverMasterOptions
    {
      serverMasterOptions.Lists()
    }

    ghost predicate Resolved()
      reads serverMasterOptions
    {
      WellFormed(Lists(), maxChannels, maxButtons)
    }

    // -------------------------------------------------- registration steps

    method AddTrackerServer(name: string, skeleton: int) returns (valid: bool, errors: seq<SettingsError>)
      requires Resolved()
      modifies serverMasterOptions
      ensures Resolved()
      ensures var p := RegisterTracker(old(Lists()), name, skeleton);
        Lists() == p.servers && valid == p.valid && errors == p.errors
    {
      var o := serverMasterOptions;
      if IsServerNameValid(name) {
        var serverFound := false;
        for j := 0 to |o.trackerServers|
          invariant serverFound <==> exists k :: 0 <= k < j && o.trackerServers[k].serverName == name
        {
          if o.trackerServers[j].serverName == name {
            serverFound := true;
          }
        }
        if !serverFound {
          o.trackerServers := o.trackerServers + [TrackerServerSettings(name, SkeletonSensorCount)];
        }
        valid, errors := true, [];
      } else {
        valid, errors := false, [InvalidServerName(SkeletonTracker(skeleton), name)];
      }
      RegisterTrackerWellFormed(old(Lists()), name, skeleton, maxChannels, maxButtons);
    }

    method AddButtonServer(name: string, number: int, feature: Feature) returns (valid: bool, errors: seq<SettingsError>)
      requires Resolved()
      modifies serverMasterOptions
      ensures Resolved()
      ensures var p := RegisterButton(old(Lists()), name, number, feature, maxButtons);
        Lists() == p.servers && valid == p.valid && errors == p.errors
    {
      var o := serverMasterOptions;
      valid, errors := true, [];
      if IsServerNameValid(name) {
        var found := false;
        ghost var before := o.buttonServers;
        ghost var idx := IndexOfName(before, name);
        var ok := IsServerButtonNumberValid(number, maxButtons);
        assert DistinctNames(before);
        for j := 0 to |o.buttonServers|
          invariant |o.buttonServers| == |before|
          invariant o.Lists() == old(o.Lists()).(buttonServers := o.buttonServers)
          invariant found <==> idx.Some? && idx.value < j
          invariant o.buttonServers ==
            if found && ok
            then before[idx.value := before[idx.value].(uniqueChannels := AddUnique(before[idx.value].uniqueChannels, number))]
            else before
          invariant valid == !(found && !ok)
          invariant errors == if found && !ok then [InvalidChannel(feature, number)] else []
        {
          if o.buttonServers[j].serverName == name {
            found := true;
            if IsServerButtonNumberValid(number, maxButtons) {
              if number !in o.buttonServers[j].uniqueChannels {
                o.buttonServers := o.buttonServers[j := o.buttonServers[j].(uniqueChannels := o.buttonServers[j].uniqueChannels + [number])];
              }
            } else {
              valid := false;
              errors := errors + [InvalidChannel(feature, number)];
            }
          }
        }
        if !found {
          var temp := ButtonServerSettings(name, []);
          if IsServerButtonNumberValid(number, maxButtons) {
            temp := temp.(uniqueChannels := temp.uniqueChannels + [number]);
          } else {
            valid := false;
            errors := errors + [InvalidChannel(feature, number)];
          }
          o.buttonServers := o.buttonServers + [temp];
          assert idx.None?;
          assert temp == ButtonServerSettings(name, if ok then [number] else []);
        } else {
          assert idx.Some?;
        }
        assert o.Lists() == old(o.Lists()).(buttonServers := o.buttonServers);
        assert o.buttonServers == RegisterButton(old(Lists()), name, number, feature, maxButtons).servers.buttonServers;
        assert errors == RegisterButton(old(Lists()), name, number, feature, maxButtons).errors;
      } else {
        valid := false;
        errors := errors + [InvalidServerName(feature, name)];
      }
      RegisterButtonWellFormed(old(Lists()), name, number, feature, maxChannels, maxButtons);
    }

    method AddTextServer(name: string, word: string) returns (valid: bool, errors: seq<SettingsError>)
      requires Resolved()
      modifies serverMasterOptions
      ensures Resolved()
      ensures var p := RegisterText(old(Lists()), name, word);
        Lists() == p.servers && valid == p.valid && errors == p.errors
    {
      var o := serverMasterOptions;
      if IsServerNameValid(name) {
        var found := false;
        for j := 0 to |o.textServers|
          invariant found <==> exists k :: 0 <= k < j && o.textServers[k].serverName == name
        {
          if o.textServers[j].serverName == name {
            found := true;
          }
        }
        if !found {
          o.textServers := o.textServers + [TextServerSettings(name)];
        }
        valid, errors := true, [];
      } else {
        valid, errors := false, [InvalidServerName(Voice(word), name)];
      }
      RegisterTextWellFormed(old(Lists()), name, word, maxChannels, maxButtons);
    }

    /**
     * Checks the requested analog channels in turn (the source writes the
     * X, Y and Z acceleration checks out one after another), adding each
     * valid channel that is not yet present.
     */
    method AddAnalogChannels(channels: seq<int>, requests: seq<ChannelRequest>)
      returns (result: seq<int>, valid: bool, errors: seq<SettingsError>)
      ensures (result, errors) == AddChannels(channels, requests, maxChannels)
      ensures valid <==> errors == []
    {
      result, valid, errors := channels, true, [];
      for i := 0 to |requests|
        invariant (result, errors) == AddChannels(channels, requests[..i], maxChannels)
        invariant valid <==> errors == []
      {
        assert requests[..i + 1][..i] == requests[..i];
        var c := requests[i].channel;
        if IsServerAnalogChannelValid(c, maxChannels) {
          if c !in result {
            result := result + [c];
          }
        } else {
          valid := false;
          errors := errors + [InvalidChannel(requests[i].feature, c)];
        }
      }
      assert requests[..|requests|] == requests;
    }

    method AddAnalogServer(name: string, nameFeature: Feature, requests: seq<ChannelRequest>)
      returns (valid: bool, errors: seq<SettingsError>)
      requires Resolved()
      modifies serverMasterOptions
      ensures Resolved()
      ensures var p := RegisterAnalog(old(Lists()), name, nameFeature, requests, maxChannels);
        Lists() == p.servers && valid == p.valid && errors == p.errors
    {
      var o := serverMasterOptions;
      if IsServerNameValid(name) {
        var found := false;
        valid, errors := true, [];
        for j := 0 to |o.analogServers|
          invariant !found && o.Lists() == old(o.Lists())
          invariant forall k :: 0 <= k < j ==> o.analogServers[k].serverName != name
        {
          if o.analogServers[j].serverName == name {
            found := true;
            assert IndexOfName(o.analogServers, name) == Some(j);
            var channels;
            channels, valid, errors := AddAnalogChannels(o.analogServers[j].uniqueChannels, requests);
            o.analogServers := o.analogServers[j := o.analogServers[j].(uniqueChannels := channels)];
            break;
          }
        }
        if !found {
          var channels;
          channels, valid, errors := AddAnalogChannels([], requests);
          o.analogServers := o.analogServers + [AnalogServerSettings(name, channels)];
        }
      } else {
        valid, errors := false, [InvalidServerName(nameFeature, name)];
      }
      RegisterAnalogWellFormed(old(Lists()), name, nameFeature, requests, maxChannels, maxButtons);
    }

    /** An imager request; `shape` is the resolution table's entry for the requested format. */
    method AddImagerServer(name: string, feature: Feature, shape: Option<ImageShape>)
      returns (registered: bool, errors: seq<SettingsError>)
      requires Resolved()
      requires shape.Some? ==> IsTableShape(shape.value.rows, shape.value.columns, shape.value.isColor)
      modifies serverMasterOptions
      ensures Resolved()
      ensures var p := RegisterImager(old(Lists()), name, feature, shape);
        Lists() == p.servers && registered == p.valid && errors == p.errors
    {
      var o := serverMasterOptions;
      registered, errors := false, [];
      if IsServerNameValid(name) {
        var found := false;
        for j := 0 to |o.imagerServers|
          invariant !found
          invariant forall k :: 0 <= k < j ==> o.imagerServers[k].serverName != name
        {
          if o.imagerServers[j].serverName == name {
            found := true;
            registered := false;
            errors := errors + [ImagerInUse(feature, name)];
            break;
          }
        }
        if !found {
          match shape
          case Some(sh) =>
            o.imagerServers := o.imagerServers + [ImagerServerSettings(name, sh.rows, sh.columns, sh.isColor)];
            registered := true;
          case None =>
            registered := false;
            errors := errors + [InvalidImageFormat(feature)];
        }
      } else {
        registered := false;
        errors := errors + [InvalidServerName(feature, name)];
      }
      RegisterImagerWellFormed(old(Lists()), name, feature, shape, maxChannels, maxButtons);
    }
  
    // -------------------------------------------------- the parsers

    /** One skeleton slot: its tracker, then its right and left grips, when the skeleton is used. */
    method ParseSkeletonSlot(sk: PerSkeletonSettings, i: int) returns (valid: bool, errors: seq<SettingsError>)
      requires Resolved()
      modifies serverMasterOptions
      ensures Resolved()
      ensures Parsed(Lists(), errors, valid) == ParseSkeleton(old(Lists()), sk, i, maxButtons)
    {
      valid, errors := true, [];
      if sk.useSkeleton {
        ghost var t := RegisterTracker(Lists(), sk.serverName, i);
        valid, errors := AddTrackerServer(sk.serverName, i);
        var rightValid, rightErrors, leftValid, leftErrors := true, [], true, [];
        ghost var r := Parsed(t.servers, [], true);
        if sk.useRightHandGrip {
          r := RegisterButton(t.servers, sk.rightGripServerName, sk.rightGripButtonNumber, RightGrip(i), maxButtons);
          rightValid, rightErrors := AddButtonServer(sk.rightGripServerName, sk.rightGripButtonNumber, RightGrip(i));
        }
        if sk.useLeftHandGrip {
          leftValid, leftErrors := AddButtonServer(sk.leftGripServerName, sk.leftGripButtonNumber, LeftGrip(i));
        }
        valid, errors := valid && rightValid && leftValid, errors + rightErrors + leftErrors;
      }
    }

    /** Every slot of a skeleton list, in order; slot `i` reports its errors as "Skeleton i". */
    method ParseIndividualSkeletons(individualSkeletons: seq<PerSkeletonSettings>)
      returns (settingsValid: bool, errorMessage: seq<SettingsError>)
      requires Resolved()
      modifies serverMasterOptions
      ensures Resolved()
      ensures Parsed(Lists(), errorMessage, settingsValid)
              == Topology.ParseIndividualSkeletons(old(Lists()), individualSkeletons, maxButtons)
    {
      var sks := individualSkeletons;
      var valid, errors := true, [];
      for i := 0 to |sks|
        invariant Resolved()
        invariant Parsed(Lists(), errors, valid) == Topology.ParseIndividualSkeletons(old(Lists()), sks[..i], maxButtons)
      {
        assert sks[..i + 1][..i] == sks[..i];
        var slotValid, slotErrors := ParseSkeletonSlot(sks[i], i);
        valid, errors := valid && slotValid, errors + slotErrors;
      }
      assert sks[..|sks|] == sks;
      settingsValid, errorMessage := valid, errors;
    }

    /** One optional analog output of a sensor, folded into the running flag and errors. */
    method ParseAnalogOutput(enabled: bool, name: string, nameFeature: Feature, requests: seq<ChannelRequest>,
                             validIn: bool, errorsIn: seq<SettingsError>)
      returns (settingsValid: bool, errorMessage: seq<SettingsError>)
      requires Resolved()
      modifies serverMasterOptions
      ensures Resolved()
      ensures Parsed(Lists(), errorMessage, settingsValid)
              == AnalogStep(Parsed(old(Lists()), errorsIn, validIn), enabled, name, nameFeature, requests, maxChannels)
    {
      settingsValid, errorMessage := validIn, errorsIn;
      if enabled {
        var valid, errors := AddAnalogServer(name, nameFeature, requests);
        if !valid {
          settingsValid := false;
        }
        errorMessage := errorMessage + errors;
      }
    }

    /** One optional image output of a sensor: the running flag becomes whether it was registered. */
    method ParseImagerOutput(enabled: bool, name: string, feature: Feature, shape: Option<ImageShape>,
                             validIn: bool, errorsIn: seq<SettingsError>)
      returns (settingsValid: bool, errorMessage: seq<SettingsError>)
      requires Resolved()
      requires shape.Some? ==> IsTableShape(shape.value.rows, shape.value.columns, shape.value.isColor)
      modifies serverMasterOptions
      ensures Resolved()
      ensures Parsed(Lists(), errorMessage, settingsValid)
              == ImagerStep(Parsed(old(Lists()), errorsIn, validIn), enabled, name, feature, shape)
    {
      settingsValid, errorMessage := validIn, errorsIn;
      if enabled {
        var errors;
        settingsValid, errors := AddImagerServer(name, feature, shape);
        errorMessage := errorMessage + errors;
      }
    }

    /**
     * A first-generation sensor's acceleration, audio-angle, colour and depth
     * outputs.
     */
    method ParseKinectV1Settings(settings: KinectSettings) returns (settingsValid: bool, errorMessage: seq<SettingsError>)
      requires settings.KinectV1Settings? && Resolved()
      modifies serverMasterOptions
      ensures Resolved()
      ensures Parsed(Lists(), errorMessage, settingsValid) == ParseKinectV1(old(Lists()), settings, maxChannels)
    {
      var k := settings;
      var valid, errors := ParseAnalogOutput(k.sendAcceleration, k.accelerationServerName, Acceleration(k.kinectID),
                                             AccelerationRequests(k), true, []);
      valid, errors := ParseAnalogOutput(k.sendAudioAngle, k.audioAngleServerName, AudioAngle(k.kinectID),
                                         AudioAngleRequests(k), valid, errors);
      valid, errors := ParseImagerOutput(k.sendColorImage, k.colorServerName, ColorImager(k.kinectID),
                                         V1ColorShape(k.colorImageMode), valid, errors);
      valid, errors := ParseImagerOutput(k.sendDepthImage, k.depthServerName, DepthImager(k.kinectID),
                                         V1DepthShape(k.depthImageMode), valid, errors);
      settingsValid, errorMessage := valid, errors;
    }

    /**
     * A second-generation sensor's audio-angle, colour, depth and infrared
     * outputs.
     */
    method ParseKinectV2Settings(settings: KinectSettings) returns (settingsValid: bool, errorMessage: seq<SettingsError>)
      requires settings.KinectV2Settings? && Resolved()
      modifies serverMasterOptions
      ensures Resolved()
      ensures Parsed(Lists(), errorMessage, settingsValid) == ParseKinectV2(old(Lists()), settings, maxChannels)
    {
      var k := settings;
      var valid, errors := ParseAnalogOutput(k.sendAudioAngle, k.audioAngleServerName, AudioAngle(k.kinectID),
                                             AudioAngleRequests(k), true, []);
      valid, errors := ParseImagerOutput(k.sendColorImage, k.colorServerName, ColorImager(k.kinectID),
                                         Some(V2ColorShape), valid, errors);
      valid, errors := ParseImagerOutput(k.sendDepthImage, k.depthServerName, DepthImager(k.kinectID),
                                         Some(V2DepthShape), valid, errors);
      valid, errors := ParseImagerOutput(k.sendIRImage, k.irServerName, IRImager(k.kinectID),
                                         Some(V2IRShape), valid, errors);
      settingsValid, errorMessage := valid, errors;
    }

    /** One sensor's outputs, by its generation; a networked sensor has none to resolve. */
    method ParseKinectSettings(settings: KinectSettings) returns (settingsValid: bool, errorMessage: seq<SettingsError>)
      requires Resolved()
      modifies serverMasterOptions
      ensures Resolved()
      ensures Parsed(Lists(), errorMessage, settingsValid) == ParseKinect(old(Lists()), settings, maxChannels)
    {
      settingsValid, errorMessage := true, [];
      if settings.KinectV1Settings? {
        settingsValid, errorMessage := ParseKinectV1Settings(settings);
      } else if settings.KinectV2Settings? {
        settingsValid, errorMessage := ParseKinectV2Settings(settings);
      }
    }

    /** The raw-skeleton slots of one sensor, skipped unless it is a local sensor that sends raw skeletons. */
    method ParseRawSkeletonSlots(k: KinectSettings) returns (settingsValid: bool, errorMessage: seq<SettingsError>)
      requires Resolved()
      modifies serverMasterOptions
      ensures Resolved()
      ensures Parsed(Lists(), errorMessage, settingsValid) == ParseRawSkeleton(old(Lists()), k, maxButtons)
    {
      settingsValid, errorMessage := true, [];
      if !k.NetworkedKinectSettings? && k.sendRawSkeletons {
        settingsValid, errorMessage := ParseIndividualSkeletons(k.rawSkeletons);
      }
    }

    /** The raw-skeleton slots of every first- and second-generation sensor that sends raw skeletons. */
    method ParseRawSkeletonSettings(kinects: seq<KinectSettings>) returns (settingsValid: bool, errorMessage: seq<SettingsError>)
      requires Resolved()
      modifies serverMasterOptions
      ensures Resolved()
      ensures Parsed(Lists(), errorMessage, settingsValid) == ParseRawSkeletons(old(Lists()), kinects, maxButtons)
    {
      settingsValid, errorMessage := true, [];
      for i := 0 to |kinects|
        invariant Resolved()
        invariant Parsed(Lists(), errorMessage, settingsValid) == ParseRawSkeletons(old(Lists()), kinects[..i], maxButtons)
      {
        ParseRawSkeletonsSnoc(old(Lists()), kinects, i, maxButtons);
        var valid, errors := ParseRawSkeletonSlots(kinects[i]);
        settingsValid, errorMessage := settingsValid && valid, errorMessage + errors;
      }
      assert kinects[..|kinects|] == kinects;
    }

    /** One voice command: a button or a text server, any other type is ignored. */
    method ParseVoiceCommandSetting(v: VoiceCommand) returns (settingsValid: bool, errorMessage: seq<SettingsError>)
      requires Resolved()
      modifies serverMasterOptions
      ensures Resolved()
      ensures Parsed(Lists(), errorMessage, settingsValid) == ParseVoiceCommand(old(Lists()), v, maxButtons)
    {
      settingsValid, errorMessage := true, [];
      if v.serverType == Button {
        settingsValid, errorMessage := AddButtonServer(v.serverName, v.buttonNumber, Voice(v.recognizedWord));
      } else if v.serverType == Text {
        settingsValid, errorMessage := AddTextServer(v.serverName, v.recognizedWord);
      }
    }

    /** The voice commands: a button or a text server each, any other type is ignored. */
    method ParseVoiceCommandSettings(voice: seq<VoiceCommand>) returns (settingsValid: bool, errorMessage: seq<SettingsError>)
      requires Resolved()
      modifies serverMasterOptions
      ensures Resolved()
      ensures Parsed(Lists(), errorMessage, settingsValid) == ParseVoiceCommands(old(Lists()), voice, maxButtons)
    {
      settingsValid, errorMessage := true, [];
      for i := 0 to |voice|
        invariant Resolved()
        invariant Parsed(Lists(), errorMessage, settingsValid) == ParseVoiceCommands(old(Lists()), voice[..i], maxButtons)
      {
        ParseVoiceCommandsSnoc(old(Lists()), voice, i, maxButtons);
        var valid, errors := ParseVoiceCommandSetting(voice[i]);
        settingsValid, errorMessage := settingsValid && valid, errorMessage + errors;
      }
      assert voice[..|voice|] == voice;
    }

    /** Every sensor's outputs, in order. */
    method ParseKinectListSettings(kinects: seq<KinectSettings>) returns (settingsValid: bool, errorMessage: seq<SettingsError>)
      requires Resolved()
      modifies serverMasterOptions
      ensures Resolved()
      ensures Parsed(Lists(), errorMessage, settingsValid) == ParseKinects(old(Lists()), kinects, maxChannels)
    {
      settingsValid, errorMessage := true, [];
      for i := 0 to |kinects|
        invariant Resolved()
        invariant Parsed(Lists(), errorMessage, settingsValid) == ParseKinects(old(Lists()), kinects[..i], maxChannels)
      {
        ParseKinectsSnoc(old(Lists()), kinects, i, maxChannels);
        var valid, errors := ParseKinectSettings(kinects[i]);
        settingsValid, errorMessage := settingsValid && valid, errorMessage + errors;
      }
      assert kinects[..|kinects|] == kinects;
    }

    /**
     * The whole resolution: clears the server lists, then parses the merged
     * skeletons, the raw skeletons of each sensor, the voice commands and each
     * sensor's outputs, collecting every error.
     */
    method ParseSettings() returns (settingsValid: bool, errorMessage: seq<SettingsError>)
      modifies serverMasterOptions
      ensures Resolved()
      ensures var o := serverMasterOptions;
        Parsed(Lists(), errorMessage, settingsValid)
        == Topology.ParseSettings(o.mergedSkeletonOptions, o.kinectOptionsList, o.voiceCommands, maxChannels, maxButtons)
    {
      var o := serverMasterOptions;
      o.analogServers, o.buttonServers, o.textServers, o.trackerServers, o.imagerServers := [], [], [], [], [];
      assert Lists() == NoServers;
      var mergedValid, mergedErrors := ParseIndividualSkeletons(o.mergedSkeletonOptions);
      var rawValid, rawErrors := ParseRawSkeletonSettings(o.kinectOptionsList);
      var voiceValid, voiceErrors := ParseVoiceCommandSettings(o.voiceCommands);
      var kinectValid, kinectErrors := ParseKinectListSettings(o.kinectOptionsList);
      settingsValid := mergedValid && rawValid && voiceValid && kinectValid;
      errorMessage := mergedErrors + rawErrors + voiceErrors + kinectErrors;
    }


    // -------------------------------------------------- lookups and sending

    /**
     * The index of the named server of a type, or None; imager servers are
     * never found.
     */
    method GetServerIDFromName(name: string, serverType: ServerType) returns (id: Option<nat>)
      ensures id == IndexOfName(ListOf(Lists(), serverType), name)
      ensures serverType == Imager ==> id.None?
    {
      var o := serverMasterOptions;
      if serverType == Analog {
        id := FindServer(o.analogServers, name);
      } else if serverType == Button {
        id := FindServer(o.buttonServers, name);
      } else if serverType == Text {
        id := FindServer(o.textServers, name);
      } else if serverType == Tracker {
        id := FindServer(o.trackerServers, name);
      } else {
        id := None;
      }
    }

    /**
     * The poses sent for a skeleton on the named tracker server: when the
     * server exists, one report per joint that is not NotTracked, in slot
     * order, with the joint's wire sensor number; otherwise nothing is sent
     * and a line is logged.
     */
    method SendSkeletonVRPN(skeleton: SkeletonData, trackingServerName: string)
      returns (jointServerID: Option<nat>, reports: seq<PoseReport>, log: seq<string>)
      requires skeleton.Valid()
      ensures jointServerID == IndexOfName(Lists().trackerServers, trackingServerName)
      ensures jointServerID.Some? ==> reports == PoseReports(skeleton.jointBacker[..]) && log == []
      ensures jointServerID.None? ==> reports == [] && log == [TrackerNotFound(trackingServerName)]
    {
      jointServerID := GetServerIDFromName(trackingServerName, Tracker);
      reports, log := [], [];
      if jointServerID.Some? {
        for i := 0 to skeleton.Count()
          invariant reports == PoseReports(skeleton.jointBacker[..i])
        {
          var joint := skeleton.GetByIndex(i).value;
          assert skeleton.jointBacker[..i + 1][..i] == skeleton.jointBacker[..i];
          if joint.trackingState != NotTracked {
            reports := reports + [PoseReport(GetSkeletonSensorNumber(joint.jointType), joint.position, joint.orientation)];
          }
        }
        assert skeleton.jointBacker[..skeleton.Count()] == skeleton.jointBacker[..];
      } else {
        log := log + [TrackerNotFound(trackingServerName)];
      }
    }

    // -------------------------------------------------- merging

    /**
     * One pass of skeleton fusion over the snapshots: every skeleton of every
     * snapshot joins the clusters in turn; `inc` is the running-average helper.
     * The clusters are built in a local list and stored in `mergedSkeletons`
     * at the end (the source clears that list first and fills it in place).
     */
    method FindSameSkeletons(kinectSkeletons: seq<KinectSkeletonsData>, inc: Averager)
      modifies this`mergedSkeletons
      ensures mergedSkeletons == Fusion.FindSameSkeletons(SkeletonLists(kinectSkeletons), inc).clusters
      ensures perKinectSkeletons == old(perKinectSkeletons) && feedbackPosition == old(feedbackPosition)
    {
      var averageCenters: seq<Point3> := [];
      var clusters: seq<MergedSkeleton> := [];
      ghost var lists := SkeletonLists(kinectSkeletons);
      for i := 0 to |kinectSkeletons|
        invariant Clustering(averageCenters, clusters) == Cluster(Flatten(lists[..i]), inc)
      {
        averageCenters, clusters := PlaceSkeletons(averageCenters, clusters, kinectSkeletons[i].actualSkeletons, inc,
                                                   Flatten(lists[..i]));
        FlattenSnoc(lists, i);
      }
      assert lists[..|kinectSkeletons|] == lists;
      mergedSkeletons := clusters;
    }

    /**
     * A sensor's new skeletons enter the merge buffer, when that sensor's
     * skeletons are merged: they are transformed into the common frame, every
     * buffered snapshot of the sensor is taken out (each entry is dequeued and
     * re-enqueued unless it is the sensor's, while the step count is below the
     * current length), and a new snapshot is enqueued. `transform` is the
     * sensor's coordinate transform.
     */
    method UpdatePerKinectSkeletons(kinectID: int, uniqueKinectID: string, skeletons: seq<KinectSkeleton>,
                                    transform: KinectSkeleton -> KinectSkeleton)
      requires 0 <= kinectID < |serverMasterOptions.kinectOptionsList|
      requires UniqueIds(perKinectSkeletons)
      modifies this`perKinectSkeletons
      ensures UniqueIds(perKinectSkeletons)
      ensures mergedSkeletons == old(mergedSkeletons) && feedbackPosition == old(feedbackPosition)
      ensures !serverMasterOptions.kinectOptionsList[kinectID].mergeSkeletons ==>
        perKinectSkeletons == old(perKinectSkeletons)
      ensures serverMasterOptions.kinectOptionsList[kinectID].mergeSkeletons ==>
        var r := perKinectSkeletons;
        && |r| > 0 && r[..|r| - 1] == Drain(old(perKinectSkeletons), 0, uniqueKinectID)
        && var entry := r[|r| - 1];
        && fresh(entry) && entry.uniqueID == uniqueKinectID && entry.kinectID == kinectID
        && |entry.actualSkeletons| == |skeletons|
        && (forall k :: 0 <= k < |skeletons| ==> entry.actualSkeletons[k] == transform(skeletons[k]))
    {
      if serverMasterOptions.kinectOptionsList[kinectID].mergeSkeletons {
        var transformed := skeletons;
        for i := 0 to |transformed|
          invariant |transformed| == |skeletons|
          invariant forall k :: 0 <= k < i ==> transformed[k] == transform(skeletons[k])
          invariant forall k :: i <= k < |transformed| ==> transformed[k] == skeletons[k]
        {
          transformed := transformed[i := transform(transformed[i])];
        }

        var i := 0;
        while i < |perKinectSkeletons|
          invariant Drain(perKinectSkeletons, i, uniqueKinectID) == Drain(old(perKinectSkeletons), 0, uniqueKinectID)
          decreases |perKinectSkeletons| - i
        {
          ghost var before := perKinectSkeletons;
          var found := false;
          while !found
            invariant !found ==> perKinectSkeletons == before
            invariant found ==> perKinectSkeletons == Rotated(before, uniqueKinectID)
            decreases if found then 0 else 1
          {
            if |perKinectSkeletons| > 0 {
              var skel := perKinectSkeletons[0];
              perKinectSkeletons := perKinectSkeletons[1..];
              found := true;
              if skel.uniqueID != uniqueKinectID {
                perKinectSkeletons := perKinectSkeletons + [skel];
              }
            }
          }
          i := i + 1;
        }

        var kinectSkel := new KinectSkeletonsData(uniqueKinectID, |skeletons|);
        kinectSkel.actualSkeletons := transformed;
        kinectSkel.kinectID := kinectID;
        ReplaceSnapshot(old(perKinectSkeletons), kinectSkel);
        perKinectSkeletons := perKinectSkeletons + [kinectSkel];
      }
    }
  }
}
