/**
 * The settings resolver: from per-skeleton, per-sensor and voice-command
 * options it derives the named output servers (tracker, button, analog, text,
 * imager) and collects every configuration error, without stopping at the
 * first. This module is the specification; the imperative resolver in module
 * Server is proved to compute exactly these functions.
 */
module Topology {
  import opened Wrappers

  // ------------------------------------------------------------ settings in

  datatype ServerType = Analog | Button | Text | Tracker | Imager

  /** The options of one skeleton slot (merged or raw). */
  datatype PerSkeletonSettings = PerSkeletonSettings(
    useSkeleton: bool,
    serverName: string,
    useRightHandGrip: bool,
    rightGripServerName: string,
    rightGripButtonNumber: int,
    useLeftHandGrip: bool,
    leftGripServerName: string,
    leftGripButtonNumber: int)

  /** Colour stream formats of the first-generation sensor SDK. */
  datatype ColorImageFormat =
    | UndefinedColorFormat
    | RgbResolution640x480Fps30
    | RgbResolution1280x960Fps12
    | YuvResolution640x480Fps15
    | RawYuvResolution640x480Fps15
    | InfraredResolution640x480Fps30
    | RawBayerResolution640x480Fps30
    | RawBayerResolution1280x960Fps12

  /** Depth stream formats of the first-generation sensor SDK. */
  datatype DepthImageFormat =
    | UndefinedDepthFormat
    | Resolution640x480Fps30
    | Resolution320x240Fps30
    | Resolution80x60Fps30

  /**
   * The per-sensor options the resolver reads, one variant per sensor
   * generation; a networked sensor only takes part in merging.
   */
  datatype KinectSettings =
    | KinectV1Settings(
        kinectID: int,
        mergeSkeletons: bool,
        sendRawSkeletons: bool,
        rawSkeletons: seq<PerSkeletonSettings>,
        sendAcceleration: bool,
        accelerationServerName: string,
        accelXChannel: int,
        accelYChannel: int,
        accelZChannel: int,
        sendAudioAngle: bool,
        audioAngleServerName: string,
        audioAngleChannel: int,
        sendColorImage: bool,
        colorServerName: string,
        colorImageMode: ColorImageFormat,
        sendDepthImage: bool,
        depthServerName: string,
        depthImageMode: DepthImageFormat)
    | KinectV2Settings(
        kinectID: int,
        mergeSkeletons: bool,
        sendRawSkeletons: bool,
        rawSkeletons: seq<PerSkeletonSettings>,
        sendAudioAngle: bool,
        audioAngleServerName: string,
        audioAngleChannel: int,
        sendColorImage: bool,
        colorServerName: string,
        sendDepthImage: bool,
        depthServerName: string,
        sendIRImage: bool,
        irServerName: string)
    | NetworkedKinectSettings(kinectID: int, mergeSkeletons: bool)

  /** A voice command; `buttonNumber` is read only when it drives a button server. */
  datatype VoiceCommand = VoiceCommand(
    recognizedWord: string,
    serverName: string,
    serverType: ServerType,
    buttonNumber: int)

  // ----------------------------------------------------------- servers out

  /** A server descriptor. Channel and button numbers are kept as a duplicate-free list. */
  datatype ServerSettings =
    | AnalogServerSettings(serverName: string, uniqueChannels: seq<int>)
    | ButtonServerSettings(serverName: string, uniqueChannels: seq<int>)
    | TextServerSettings(serverName: string)
    | TrackerServerSettings(serverName: string, sensorCount: int)
    | ImagerServerSettings(serverName: string, rows: int, columns: int, isColor: bool)

  /** The five descriptor lists, one per server type. */
  datatype Servers = Servers(
    analogServers: seq<ServerSettings>,
    buttonServers: seq<ServerSettings>,
    textServers: seq<ServerSettings>,
    trackerServers: seq<ServerSettings>,
    imagerServers: seq<ServerSettings>)

  const NoServers := Servers([], [], [], [], [])

  /** Each list holds descriptors of its own type only. */
  predicate Typed(s: Servers) {
    (forall i :: 0 <= i < |s.analogServers| ==> s.analogServers[i].AnalogServerSettings?)
    && (forall i :: 0 <= i < |s.buttonServers| ==> s.buttonServers[i].ButtonServerSettings?)
    && (forall i :: 0 <= i < |s.textServers| ==> s.textServers[i].TextServerSettings?)
    && (forall i :: 0 <= i < |s.trackerServers| ==> s.trackerServers[i].TrackerServerSettings?)
    && (forall i :: 0 <= i < |s.imagerServers| ==> s.imagerServers[i].ImagerServerSettings?)
  }

  /** Every skeleton tracker carries this many sensors, one per wire joint number 0..26. */
  const SkeletonSensorCount := 27

  // ---------------------------------------------------------------- errors

  /** Which option an error is about. */
  datatype Feature =
    | SkeletonTracker(skeleton: int)
    | RightGrip(skeleton: int)
    | LeftGrip(skeleton: int)
    | Voice(word: string)
    | Acceleration(kinect: int)
    | AccelerationAxis(kinect: int, axis: string)
    | AudioAngle(kinect: int)
    | ColorImager(kinect: int)
    | DepthImager(kinect: int)
    | IRImager(kinect: int)

  datatype SettingsError =
    | InvalidServerName(feature: Feature, name: string)
    | InvalidChannel(feature: Feature, channel: int)
    | ImagerInUse(feature: Feature, name: string)
    | InvalidImageFormat(feature: Feature)

  function NatToString(n: nat): string
    decreases n
  {
    var digit := ["0", "1", "2", "3", "4", "5", "6", "7", "8", "9"][n % 10];
    if n < 10 then digit else NatToString(n / 10) + digit
  }

  function IntToString(i: int): string {
    if i < 0 then "-" + NatToString(-i) else NatToString(i)
  }

  /** The option an error is about, as the message names it. */
  function Subject(f: Feature): string {
    match f
    case SkeletonTracker(i) => "Skeleton " + IntToString(i)
    case RightGrip(i) => "Skeleton " + IntToString(i) + " right-hand grip"
    case LeftGrip(i) => "Skeleton " + IntToString(i) + " left-hand grip"
    case Voice(w) => "Voice command \"" + w + "\""
    case Acceleration(k) => "Kinect " + IntToString(k) + " acceleration"
    case AccelerationAxis(k, a) => "Kinect " + IntToString(k) + " " + a + " acceleration"
    case AudioAngle(k) => "Kinect " + IntToString(k) + " audio angle"
    case ColorImager(k) => "Kinect " + IntToString(k) + " color imager"
    // the infrared imager's messages use the depth imager's wording
    case DepthImager(k) => "Kinect " + IntToString(k) + " depth imager"
    case IRImager(k) => "Kinect " + IntToString(k) + " depth imager"
  }

  /** The wording of one error, up to its closing full stop. */
  function ErrorSentence(e: SettingsError): string {
    match e
    case InvalidServerName(f, n) =>
      Subject(f) + " server name (\"" + n + "\") is invalid"
    case InvalidChannel(f, c) =>
      if f.AccelerationAxis? then Subject(f) + " channel (" + IntToString(c) + ") is invalid"
      else if f.Voice? then Subject(f) + " server channel (\"" + IntToString(c) + "\") is invalid"
      else Subject(f) + " server channel (" + IntToString(c) + ") is invalid"
    case ImagerInUse(f, n) =>
      Subject(f) + " server name (" + n + ") is invalid because each server can only run one imager"
    case InvalidImageFormat(f) =>
      (match f
       case ColorImager(k) => "Kinect " + IntToString(k) + " color image"
       case DepthImager(k) => "Kinect " + IntToString(k) + " depth image"
       case _ => Subject(f))
      + " format is invalid"
  }

  /** The text of one error, as appended to the error message: one line ending in a full stop and CR LF. */
  function ErrorText(e: SettingsError): (r: string)
    ensures |r| >= 3 && r[|r| - 3..] == ".\r\n"
  {
    ErrorSentence(e) + ".\r\n"
  }

  /** The concatenation of the texts of a list, in order. */
  function Join<T>(xs: seq<T>, text: T -> string): string {
    if xs == [] then "" else Join(xs[..|xs| - 1], text) + text(xs[|xs| - 1])
  }

  /**
   * The infrared imager's errors read exactly as the depth imager's, in all
   * three kinds; only the image-format error, which the infrared imager
   * cannot raise, is worded apart.
   */
  lemma IRImagerUsesDepthWording(k: int, name: string)
    ensures ErrorText(InvalidServerName(IRImager(k), name)) == ErrorText(InvalidServerName(DepthImager(k), name))
    ensures ErrorText(ImagerInUse(IRImager(k), name)) == ErrorText(ImagerInUse(DepthImager(k), name))
    ensures Subject(IRImager(k)) == Subject(DepthImager(k)) == "Kinect " + IntToString(k) + " depth imager"
  {
  }

  /** The whole error message: the texts of all errors, in the order they were found. */
  function ErrorMessage(errors: seq<SettingsError>): string {
    Join(errors, ErrorText)
  }

  // ------------------------------------------------------ validity predicates

  predicate IsAsciiLetterOrDigit(c: char) {
    ('a' <= c <= 'z') || ('A' <= c <= 'Z') || ('0' <= c <= '9')
  }

  predicate AllLettersOrDigits(s: string) {
    forall i :: 0 <= i < |s| ==> IsAsciiLetterOrDigit(s[i])
  }

  /** A server name is valid when it is non-empty and made of ASCII letters and digits only. */
  predicate IsServerNameValid(name: string): (ok: bool)
    ensures ok ==> |name| > 0 && '\n' !in name && ' ' !in name
  {
    |name| > 0 && AllLettersOrDigits(name)
  }

  /**
   * The name check as written: the pattern `^[a-zA-Z0-9]+$` under .NET
   * regular-expression rules, where `$` also matches just before a final
   * line feed, so a name followed by one "\n" passes as well.
   */
  predicate IsServerNameValidAsWritten(name: string) {
    |name| > 0
    && (AllLettersOrDigits(name)
        || (|name| > 1 && name[|name| - 1] == '\n' && AllLettersOrDigits(name[..|name| - 1])))
  }

  /** A channel of an analog server with `maxChannels` channels: numbered from 0, the capacity itself excluded. */
  predicate IsServerAnalogChannelValid(channel: int, maxChannels: int): (ok: bool)
    ensures ok ==> channel >= 0 && maxChannels > 0
  {
    0 <= channel < maxChannels
  }

  /** A button of a button server with `maxButtons` buttons: numbered from 0, the capacity itself excluded. */
  predicate IsServerButtonNumberValid(buttonNumber: int, maxButtons: int): (ok: bool)
    ensures ok ==> buttonNumber >= 0 && maxButtons > 0
  {
    0 <= buttonNumber < maxButtons
  }

  /** The first and last numbers of a server are valid, -1 and the capacity are not. */
  lemma NumberBoundaries(capacity: int)
    requires capacity > 0
    ensures IsServerAnalogChannelValid(0, capacity) && IsServerAnalogChannelValid(capacity - 1, capacity)
    ensures !IsServerAnalogChannelValid(-1, capacity) && !IsServerAnalogChannelValid(capacity, capacity)
    ensures IsServerButtonNumberValid(0, capacity) && IsServerButtonNumberValid(capacity - 1, capacity)
    ensures !IsServerButtonNumberValid(-1, capacity) && !IsServerButtonNumberValid(capacity, capacity)
  {
  }

  // ------------------------------------------------------ searching by name

  function IndexOfName(servers: seq<ServerSettings>, name: string): (r: Option<nat>)
    ensures r.Some? ==> r.value < |servers| && servers[r.value].serverName == name
    ensures r.Some? ==> forall j :: 0 <= j < r.value ==> servers[j].serverName != name
    ensures r.None? <==> forall j :: 0 <= j < |servers| ==> servers[j].serverName != name
  {
    if servers == [] then None
    else if servers[0].serverName == name then Some(0)
    else match IndexOfName(servers[1..], name)
      case None => None
      case Some(i) => Some(i + 1)
  }

  predicate HasName(servers: seq<ServerSettings>, name: string) {
    exists j :: 0 <= j < |servers| && servers[j].serverName == name
  }

  /** The channel or button numbers of a descriptor; the other kinds have none. */
  function Channels(d: ServerSettings): seq<int> {
    match d
    case AnalogServerSettings(_, c) => c
    case ButtonServerSettings(_, c) => c
    case _ => []
  }

  predicate HasChannel(servers: seq<ServerSettings>, name: string, c: int) {
    exists j :: 0 <= j < |servers| && servers[j].serverName == name && c in Channels(servers[j])
  }

  lemma AppendedHasName(servers: seq<ServerSettings>, d: ServerSettings)
    ensures HasName(servers + [d], d.serverName)
  {
    assert (servers + [d])[|servers|] == d;
  }

  /** `b` extends `a`: every descriptor of `a` is still there, in place, with at least its channels. */
  predicate Keeps(a: seq<ServerSettings>, b: seq<ServerSettings>) {
    |a| <= |b|
    && forall i :: 0 <= i < |a| ==>
         b[i].serverName == a[i].serverName && (forall c :: c in Channels(a[i]) ==> c in Channels(b[i]))
  }

  /** Resolution only ever adds servers and channels. */
  predicate Grows(a: Servers, b: Servers) {
    Keeps(a.analogServers, b.analogServers) && Keeps(a.buttonServers, b.buttonServers)
    && Keeps(a.textServers, b.textServers) && Keeps(a.trackerServers, b.trackerServers)
    && Keeps(a.imagerServers, b.imagerServers)
  }

  // ------------------------------------------------------ one registration each

  /** The outcome of resolving some options: new servers, the errors found, and the validity flag. */
  datatype Parsed = Parsed(servers: Servers, errors: seq<SettingsError>, valid: bool)

  /** A skeleton's tracker: added once per distinct valid name, with 27 sensors. */
  function RegisterTracker(s: Servers, name: string, skeleton: int): (r: Parsed)
    requires Typed(s)
    ensures Typed(r.servers)
    ensures Grows(s, r.servers) && r.servers == s.(trackerServers := r.servers.trackerServers)
    ensures r.valid <==> IsServerNameValid(name)
    ensures r.valid <==> r.errors == []
    ensures !r.valid ==> r.servers == s && r.errors == [InvalidServerName(SkeletonTracker(skeleton), name)]
    ensures r.valid ==> HasName(r.servers.trackerServers, name)
    ensures |r.servers.trackerServers| <= |s.trackerServers| + 1
    ensures HasName(s.trackerServers, name) ==> r.servers == s
    ensures r.valid && !HasName(s.trackerServers, name) ==>
              r.servers.trackerServers == s.trackerServers + [TrackerServerSettings(name, SkeletonSensorCount)]
  {
    if !IsServerNameValid(name) then Parsed(s, [InvalidServerName(SkeletonTracker(skeleton), name)], false)
    else if HasName(s.trackerServers, name) then Parsed(s, [], true)
    else
      AppendedHasName(s.trackerServers, TrackerServerSettings(name, SkeletonSensorCount));
      Parsed(s.(trackerServers := s.trackerServers + [TrackerServerSettings(name, SkeletonSensorCount)]), [], true)
  }

  /** Adds `c` to a duplicate-free channel list unless it is already there. */
  function AddUnique(channels: seq<int>, c: int): seq<int> {
    if c in channels then channels else channels + [c]
  }

  /**
   * A button request: the named server gets the button number if it is valid
   * and new; a server of that name is created if there is none, even with an
   * empty list when the number is invalid.
   */
  function RegisterButton(s: Servers, name: string, number: int, feature: Feature, maxButtons: int): (r: Parsed)
    requires Typed(s)
    ensures Typed(r.servers)
    ensures Grows(s, r.servers) && r.servers == s.(buttonServers := r.servers.buttonServers)
    ensures r.valid <==> IsServerNameValid(name) && IsServerButtonNumberValid(number, maxButtons)
    ensures r.valid <==> r.errors == []
    ensures |r.errors| <= 1
    ensures IsServerNameValid(name) ==> HasName(r.servers.buttonServers, name)
    ensures r.valid ==> HasChannel(r.servers.buttonServers, name, number)
    ensures |r.servers.buttonServers| <= |s.buttonServers| + 1
    ensures IsServerNameValid(name) && !HasName(s.buttonServers, name) ==>
              r.servers.buttonServers == s.buttonServers + [ButtonServerSettings(name, if r.valid then [number] else [])]
    ensures HasName(s.buttonServers, name) ==> |r.servers.buttonServers| == |s.buttonServers|
  {
    if !IsServerNameValid(name) then Parsed(s, [InvalidServerName(feature, name)], false)
    else
      var ok := IsServerButtonNumberValid(number, maxButtons);
      var errors := if ok then [] else [InvalidChannel(feature, number)];
      match IndexOfName(s.buttonServers, name)
      case Some(j) =>
        var b := s.buttonServers[j];
        var buttons := if ok then s.buttonServers[j := b.(uniqueChannels := AddUnique(b.uniqueChannels, number))]
                       else s.buttonServers;
        assert buttons[j].serverName == name;
        assert ok ==> number in Channels(buttons[j]);
        Parsed(s.(buttonServers := buttons), errors, ok)
      case None =>
        var b := ButtonServerSettings(name, if ok then [number] else []);
        AppendedHasName(s.buttonServers, b);
        assert (s.buttonServers + [b])[|s.buttonServers|] == b;
        Parsed(s.(buttonServers := s.buttonServers + [b]), errors, ok)
  }

  /** A requested analog channel, with the option it comes from for error reporting. */
  datatype ChannelRequest = ChannelRequest(channel: int, feature: Feature)

  /** Adds each valid channel that is not yet present, in order, and an error for each invalid one. */
  function AddChannels(channels: seq<int>, requests: seq<ChannelRequest>, maxChannels: int): (r: (seq<int>, seq<SettingsError>))
    ensures forall c :: c in channels ==> c in r.0
    ensures forall i :: 0 <= i < |requests| && IsServerAnalogChannelValid(requests[i].channel, maxChannels) ==> requests[i].channel in r.0
    ensures r.1 == [] <==> forall i :: 0 <= i < |requests| ==> IsServerAnalogChannelValid(requests[i].channel, maxChannels)
    ensures |r.1| <= |requests|
  {
    if requests == [] then (channels, [])
    else
      var (before, errors) := AddChannels(channels, requests[..|requests| - 1], maxChannels);
      var r := requests[|requests| - 1];
      if IsServerAnalogChannelValid(r.channel, maxChannels) then (AddUnique(before, r.channel), errors)
      else (before, errors + [InvalidChannel(r.feature, r.channel)])
  }

  /** An analog request (acceleration X/Y/Z or audio angle) on the named server. */
  function RegisterAnalog(s: Servers, name: string, nameFeature: Feature, requests: seq<ChannelRequest>, maxChannels: int): (r: Parsed)
    requires Typed(s)
    ensures Typed(r.servers)
    ensures Grows(s, r.servers) && r.servers == s.(analogServers := r.servers.analogServers)
    ensures r.valid <==> IsServerNameValid(name)
                         && forall i :: 0 <= i < |requests| ==> IsServerAnalogChannelValid(requests[i].channel, maxChannels)
    ensures r.valid <==> r.errors == []
    ensures IsServerNameValid(name) ==> HasName(r.servers.analogServers, name)
    ensures IsServerNameValid(name) ==>
              forall i :: 0 <= i < |requests| && IsServerAnalogChannelValid(requests[i].channel, maxChannels) ==>
                HasChannel(r.servers.analogServers, name, requests[i].channel)
    ensures |r.servers.analogServers| <= |s.analogServers| + 1
  {
    if !IsServerNameValid(name) then Parsed(s, [InvalidServerName(nameFeature, name)], false)
    else match IndexOfName(s.analogServers, name)
      case Some(j) =>
        var a := s.analogServers[j];
        var (channels, errors) := AddChannels(a.uniqueChannels, requests, maxChannels);
        assert s.analogServers[j := a.(uniqueChannels := channels)][j].serverName == name;
        Parsed(s.(analogServers := s.analogServers[j := a.(uniqueChannels := channels)]), errors, errors == [])
      case None =>
        var (channels, errors) := AddChannels([], requests, maxChannels);
        var a := AnalogServerSettings(name, channels);
        AppendedHasName(s.analogServers, a);
        assert (s.analogServers + [a])[|s.analogServers|] == a;
        Parsed(s.(analogServers := s.analogServers + [a]), errors, errors == [])
  }

  /** A voice command's text server: added once per distinct valid name. */
  function RegisterText(s: Servers, name: string, word: string): (r: Parsed)
    requires Typed(s)
    ensures Typed(r.servers)
    ensures Grows(s, r.servers) && r.servers == s.(textServers := r.servers.textServers)
    ensures r.valid <==> IsServerNameValid(name)
    ensures r.valid <==> r.errors == []
    ensures r.valid ==> HasName(r.servers.textServers, name)
    ensures |r.servers.textServers| <= |s.textServers| + 1
    ensures HasName(s.textServers, name) ==> r.servers == s
    ensures r.valid && !HasName(s.textServers, name) ==> r.servers.textServers == s.textServers + [TextServerSettings(name)]
  {
    if !IsServerNameValid(name) then Parsed(s, [InvalidServerName(Voice(word), name)], false)
    else if HasName(s.textServers, name) then Parsed(s, [], true)
    else
      AppendedHasName(s.textServers, TextServerSettings(name));
      Parsed(s.(textServers := s.textServers + [TextServerSettings(name)]), [], true)
  }

  /** The size and kind of an image stream. */
  datatype ImageShape = ImageShape(rows: int, columns: int, isColor: bool)

  /** An imager request: a name may carry only one image stream, and the format must be known. */
  function RegisterImager(s: Servers, name: string, feature: Feature, shape: Option<ImageShape>): (r: Parsed)
    requires Typed(s)
    ensures Typed(r.servers)
    ensures Grows(s, r.servers) && r.servers == s.(imagerServers := r.servers.imagerServers)
    ensures r.valid <==> IsServerNameValid(name) && !HasName(s.imagerServers, name) && shape.Some?
    ensures r.valid <==> r.errors == []
    ensures |r.errors| <= 1
    ensures r.valid ==> r.servers.imagerServers
                          == s.imagerServers + [ImagerServerSettings(name, shape.value.rows, shape.value.columns, shape.value.isColor)]
    ensures !r.valid ==> r.servers == s
    ensures IsServerNameValid(name) && shape.Some? ==> HasName(r.servers.imagerServers, name)
  {
    if !IsServerNameValid(name) then Parsed(s, [InvalidServerName(feature, name)], false)
    else if HasName(s.imagerServers, name) then Parsed(s, [ImagerInUse(feature, name)], false)
    else match shape
      case None => Parsed(s, [InvalidImageFormat(feature)], false)
      case Some(sh) =>
        AppendedHasName(s.imagerServers, ImagerServerSettings(name, sh.rows, sh.columns, sh.isColor));
        Parsed(s.(imagerServers := s.imagerServers + [ImagerServerSettings(name, sh.rows, sh.columns, sh.isColor)]), [], true)
  }

  // ------------------------------------------------------ the resolution table

  function V1ColorShape(f: ColorImageFormat): (r: Option<ImageShape>)
    ensures r.Some? <==> f in {RgbResolution1280x960Fps12, RgbResolution640x480Fps30, InfraredResolution640x480Fps30}
    ensures r.Some? ==> (r.value.isColor <==> f != InfraredResolution640x480Fps30)
    ensures r.Some? ==> IsTableShape(r.value.rows, r.value.columns, r.value.isColor)
  {
    match f
    case RgbResolution1280x960Fps12 => Some(ImageShape(960, 1280, true))
    case RgbResolution640x480Fps30 => Some(ImageShape(480, 640, true))
    case InfraredResolution640x480Fps30 => Some(ImageShape(480, 640, false))
    case _ => None
  }

  function V1DepthShape(f: DepthImageFormat): (r: Option<ImageShape>)
    ensures r.Some? <==> f != UndefinedDepthFormat
    ensures r.Some? ==> !r.value.isColor && IsTableShape(r.value.rows, r.value.columns, r.value.isColor)
  {
    match f
    case Resolution640x480Fps30 => Some(ImageShape(480, 640, false))
    case Resolution320x240Fps30 => Some(ImageShape(240, 320, false))
    case Resolution80x60Fps30 => Some(ImageShape(60, 80, false))
    case UndefinedDepthFormat => None
  }

  const V2ColorShape := ImageShape(1080, 1920, true)
  const V2DepthShape := ImageShape(424, 512, false)
  const V2IRShape := ImageShape(424, 512, false)

  /** The shapes the table can give an imager. */
  predicate IsTableShape(rows: int, columns: int, isColor: bool) {
    ImageShape(rows, columns, isColor) in
      {ImageShape(960, 1280, true), ImageShape(480, 640, true), ImageShape(480, 640, false),
       ImageShape(240, 320, false), ImageShape(60, 80, false),
       V2ColorShape, V2DepthShape}
  }

  // ------------------------------------------------------ the per-option parsers

  /** One skeleton slot: its tracker, then (only if the skeleton is used) its grips. */
  function ParseSkeleton(s: Servers, sk: PerSkeletonSettings, i: int, maxButtons: int): (r: Parsed)
    requires Typed(s)
    ensures Typed(r.servers)
    ensures Grows(s, r.servers)
    ensures r.valid <==> r.errors == []
  {
    if !sk.useSkeleton then Parsed(s, [], true)
    else
      var t := RegisterTracker(s, sk.serverName, i);
      var r := if sk.useRightHandGrip then RegisterButton(t.servers, sk.rightGripServerName, sk.rightGripButtonNumber, RightGrip(i), maxButtons)
               else Parsed(t.servers, [], true);
      var l := if sk.useLeftHandGrip then RegisterButton(r.servers, sk.leftGripServerName, sk.leftGripButtonNumber, LeftGrip(i), maxButtons)
               else Parsed(r.servers, [], true);
      Parsed(l.servers, t.errors + r.errors + l.errors, t.valid && r.valid && l.valid)
  }

  /** All skeleton slots of one list, in order; slot `i` reports its errors as "Skeleton i". */
  function ParseIndividualSkeletons(s: Servers, sks: seq<PerSkeletonSettings>, maxButtons: int): (r: Parsed)
    requires Typed(s)
    ensures Typed(r.servers)
    ensures Grows(s, r.servers)
    ensures r.valid <==> r.errors == []
  {
    if sks == [] then Parsed(s, [], true)
    else
      var before := ParseIndividualSkeletons(s, sks[..|sks| - 1], maxButtons);
      var last := ParseSkeleton(before.servers, sks[|sks| - 1], |sks| - 1, maxButtons);
      Parsed(last.servers, before.errors + last.errors, before.valid && last.valid)
  }

  /** The raw-skeleton slots of one sensor, when it is a first- or second-generation one that sends raw skeletons. */
  function ParseRawSkeleton(s: Servers, k: KinectSettings, maxButtons: int): (r: Parsed)
    requires Typed(s)
    ensures Typed(r.servers)
    ensures Grows(s, r.servers)
    ensures r.valid <==> r.errors == []
    ensures k.NetworkedKinectSettings? || !k.sendRawSkeletons ==> r == Parsed(s, [], true)
  {
    if !k.NetworkedKinectSettings? && k.sendRawSkeletons then ParseIndividualSkeletons(s, k.rawSkeletons, maxButtons)
    else Parsed(s, [], true)
  }

  /** The raw-skeleton slots of every first- and second-generation sensor that sends raw skeletons. */
  function ParseRawSkeletons(s: Servers, kinects: seq<KinectSettings>, maxButtons: int): (r: Parsed)
    requires Typed(s)
    ensures Typed(r.servers)
    ensures Grows(s, r.servers)
    ensures r.valid <==> r.errors == []
  {
    if kinects == [] then Parsed(s, [], true)
    else
      var before := ParseRawSkeletons(s, kinects[..|kinects| - 1], maxButtons);
      var last := ParseRawSkeleton(before.servers, kinects[|kinects| - 1], maxButtons);
      Parsed(last.servers, before.errors + last.errors, before.valid && last.valid)
  }

  /** One voice command: a button or a text server, any other type is ignored. */
  function ParseVoiceCommand(s: Servers, v: VoiceCommand, maxButtons: int): (r: Parsed)
    requires Typed(s)
    ensures Typed(r.servers)
    ensures Grows(s, r.servers)
    ensures r.valid <==> r.errors == []
    ensures v.serverType == Button ==> r == RegisterButton(s, v.serverName, v.buttonNumber, Voice(v.recognizedWord), maxButtons)
    ensures v.serverType == Text ==> r == RegisterText(s, v.serverName, v.recognizedWord)
    ensures v.serverType != Button && v.serverType != Text ==> r == Parsed(s, [], true)
    ensures VoiceServed(r.servers, v, maxButtons)
  {
    if v.serverType == Button then RegisterButton(s, v.serverName, v.buttonNumber, Voice(v.recognizedWord), maxButtons)
    else if v.serverType == Text then RegisterText(s, v.serverName, v.recognizedWord)
    else Parsed(s, [], true)
  }

  function ParseVoiceCommands(s: Servers, vs: seq<VoiceCommand>, maxButtons: int): (r: Parsed)
    requires Typed(s)
    ensures Typed(r.servers)
    ensures Grows(s, r.servers)
    ensures r.valid <==> r.errors == []
  {
    if vs == [] then Parsed(s, [], true)
    else
      var before := ParseVoiceCommands(s, vs[..|vs| - 1], maxButtons);
      var last := ParseVoiceCommand(before.servers, vs[|vs| - 1], maxButtons);
      Parsed(last.servers, before.errors + last.errors, before.valid && last.valid)
  }

  function AccelerationRequests(k: KinectSettings): seq<ChannelRequest>
    requires k.KinectV1Settings?
  {
    [ChannelRequest(k.accelXChannel, AccelerationAxis(k.kinectID, "X")),
     ChannelRequest(k.accelYChannel, AccelerationAxis(k.kinectID, "Y")),
     ChannelRequest(k.accelZChannel, AccelerationAxis(k.kinectID, "Z"))]
  }

  function AudioAngleRequests(k: KinectSettings): seq<ChannelRequest>
    requires !k.NetworkedKinectSettings?
  {
    [ChannelRequest(k.audioAngleChannel, AudioAngle(k.kinectID))]
  }

  /**
   * One optional analog output of a sensor (acceleration or audio angle):
   * when enabled it is registered and an error clears the running flag.
   */
  function AnalogStep(p: Parsed, enabled: bool, name: string, nameFeature: Feature, requests: seq<ChannelRequest>,
                      maxChannels: int): (r: Parsed)
    requires Typed(p.servers)
    ensures Typed(r.servers)
    ensures Grows(p.servers, r.servers)
    ensures !enabled ==> r == p
    ensures enabled ==> r.valid == (p.valid && r.errors == p.errors)
  {
    if enabled then
      var step := RegisterAnalog(p.servers, name, nameFeature, requests, maxChannels);
      Parsed(step.servers, p.errors + step.errors, p.valid && step.valid)
    else p
  }

  /**
   * One optional image output of a sensor: when enabled it is registered and
   * the running flag becomes whether it was, so a registered imager sets the
   * flag back to true after an earlier error.
   */
  function ImagerStep(p: Parsed, enabled: bool, name: string, feature: Feature, shape: Option<ImageShape>): (r: Parsed)
    requires Typed(p.servers)
    ensures Typed(r.servers)
    ensures Grows(p.servers, r.servers)
    ensures !enabled ==> r == p
    ensures enabled ==> (r.valid <==> IsServerNameValid(name) && !HasName(p.servers.imagerServers, name) && shape.Some?)
  {
    if enabled then
      var step := RegisterImager(p.servers, name, feature, shape);
      Parsed(step.servers, p.errors + step.errors, step.valid)
    else p
  }

  /** A first-generation sensor's acceleration, audio-angle, colour and depth outputs. */
  function ParseKinectV1(s: Servers, k: KinectSettings, maxChannels: int): (r: Parsed)
    requires k.KinectV1Settings?
    requires Typed(s)
    ensures Typed(r.servers)
    ensures Grows(s, r.servers)
    ensures !r.valid ==> r.errors != []
  {
    var p0 := Parsed(s, [], true);
    var p1 := AnalogStep(p0, k.sendAcceleration, k.accelerationServerName, Acceleration(k.kinectID), AccelerationRequests(k), maxChannels);
    var p2 := AnalogStep(p1, k.sendAudioAngle, k.audioAngleServerName, AudioAngle(k.kinectID), AudioAngleRequests(k), maxChannels);
    var p3 := ImagerStep(p2, k.sendColorImage, k.colorServerName, ColorImager(k.kinectID), V1ColorShape(k.colorImageMode));
    ImagerStep(p3, k.sendDepthImage, k.depthServerName, DepthImager(k.kinectID), V1DepthShape(k.depthImageMode))
  }

  /** A second-generation sensor's audio-angle, colour, depth and infrared outputs. */
  function ParseKinectV2(s: Servers, k: KinectSettings, maxChannels: int): (r: Parsed)
    requires k.KinectV2Settings?
    requires Typed(s)
    ensures Typed(r.servers)
    ensures Grows(s, r.servers)
    ensures !r.valid ==> r.errors != []
  {
    var p0 := Parsed(s, [], true);
    var p1 := AnalogStep(p0, k.sendAudioAngle, k.audioAngleServerName, AudioAngle(k.kinectID), AudioAngleRequests(k), maxChannels);
    var p2 := ImagerStep(p1, k.sendColorImage, k.colorServerName, ColorImager(k.kinectID), Some(V2ColorShape));
    var p3 := ImagerStep(p2, k.sendDepthImage, k.depthServerName, DepthImager(k.kinectID), Some(V2DepthShape));
    ImagerStep(p3, k.sendIRImage, k.irServerName, IRImager(k.kinectID), Some(V2IRShape))
  }

  function ParseKinect(s: Servers, k: KinectSettings, maxChannels: int): (r: Parsed)
    requires Typed(s)
    ensures Typed(r.servers)
    ensures Grows(s, r.servers)
    ensures !r.valid ==> r.errors != []
  {
    match k
    case KinectV1Settings(_, _, _, _, _, _, _, _, _, _, _, _, _, _, _, _, _, _) => ParseKinectV1(s, k, maxChannels)
    case KinectV2Settings(_, _, _, _, _, _, _, _, _, _, _, _, _) => ParseKinectV2(s, k, maxChannels)
    case NetworkedKinectSettings(_, _) => Parsed(s, [], true)
  }

  function ParseKinects(s: Servers, kinects: seq<KinectSettings>, maxChannels: int): (r: Parsed)
    requires Typed(s)
    ensures Typed(r.servers)
    ensures Grows(s, r.servers)
    ensures !r.valid ==> r.errors != []
  {
    if kinects == [] then Parsed(s, [], true)
    else
      var before := ParseKinects(s, kinects[..|kinects| - 1], maxChannels);
      var last := ParseKinect(before.servers, kinects[|kinects| - 1], maxChannels);
      Parsed(last.servers, before.errors + last.errors, before.valid && last.valid)
  }

  /** One more sensor: the fold over a longer prefix is one more step of `ParseKinect`. */
  lemma ParseRawSkeletonsSnoc(s: Servers, kinects: seq<KinectSettings>, i: nat, maxButtons: int)
    requires Typed(s) && i < |kinects|
    ensures var before := ParseRawSkeletons(s, kinects[..i], maxButtons);
            var last := ParseRawSkeleton(before.servers, kinects[i], maxButtons);
      ParseRawSkeletons(s, kinects[..i + 1], maxButtons) == Parsed(last.servers, before.errors + last.errors, before.valid && last.valid)
  {
    assert kinects[..i + 1][..i] == kinects[..i];
  }

  lemma ParseVoiceCommandsSnoc(s: Servers, vs: seq<VoiceCommand>, i: nat, maxButtons: int)
    requires Typed(s) && i < |vs|
    ensures var before := ParseVoiceCommands(s, vs[..i], maxButtons);
            var last := ParseVoiceCommand(before.servers, vs[i], maxButtons);
      ParseVoiceCommands(s, vs[..i + 1], maxButtons) == Parsed(last.servers, before.errors + last.errors, before.valid && last.valid)
  {
    assert vs[..i + 1][..i] == vs[..i];
  }

  lemma ParseKinectsSnoc(s: Servers, kinects: seq<KinectSettings>, i: nat, maxChannels: int)
    requires Typed(s) && i < |kinects|
    ensures var before := ParseKinects(s, kinects[..i], maxChannels);
            var last := ParseKinect(before.servers, kinects[i], maxChannels);
      ParseKinects(s, kinects[..i + 1], maxChannels) == Parsed(last.servers, before.errors + last.errors, before.valid && last.valid)
  {
    assert kinects[..i + 1][..i] == kinects[..i];
  }

  /** The whole resolution, from empty server lists. */
  function ParseSettings(merged: seq<PerSkeletonSettings>, kinects: seq<KinectSettings>, voice: seq<VoiceCommand>,
                         maxChannels: int, maxButtons: int): (r: Parsed)
    ensures !r.valid ==> r.errors != []
  {
    var p1 := ParseIndividualSkeletons(NoServers, merged, maxButtons);
    var p2 := ParseRawSkeletons(p1.servers, kinects, maxButtons);
    var p3 := ParseVoiceCommands(p2.servers, voice, maxButtons);
    var p4 := ParseKinects(p3.servers, kinects, maxChannels);
    Parsed(p4.servers, p1.errors + p2.errors + p3.errors + p4.errors, p1.valid && p2.valid && p3.valid && p4.valid)
  }

  // ------------------------------------------------------ well-formedness

  predicate DistinctNames(servers: seq<ServerSettings>) {
    forall i, j :: 0 <= i < j < |servers| ==> servers[i].serverName != servers[j].serverName
  }

  predicate Distinct(channels: seq<int>) {
    forall i, j :: 0 <= i < j < |channels| ==> channels[i] != channels[j]
  }

  predicate AnalogOK(d: ServerSettings, maxChannels: int) {
    d.AnalogServerSettings? && IsServerNameValid(d.serverName) && Distinct(d.uniqueChannels)
    && forall i :: 0 <= i < |d.uniqueChannels| ==> IsServerAnalogChannelValid(d.uniqueChannels[i], maxChannels)
  }

  predicate ButtonOK(d: ServerSettings, maxButtons: int) {
    d.ButtonServerSettings? && IsServerNameValid(d.serverName) && Distinct(d.uniqueChannels)
    && forall i :: 0 <= i < |d.uniqueChannels| ==> IsServerButtonNumberValid(d.uniqueChannels[i], maxButtons)
  }

  predicate TextOK(d: ServerSettings) {
    d.TextServerSettings? && IsServerNameValid(d.serverName)
  }

  predicate TrackerOK(d: ServerSettings) {
    d.TrackerServerSettings? && IsServerNameValid(d.serverName) && d.sensorCount == SkeletonSensorCount
  }

  predicate ImagerOK(d: ServerSettings) {
    d.ImagerServerSettings? && IsServerNameValid(d.serverName) && IsTableShape(d.rows, d.columns, d.isColor)
  }

  /**
   * What the resolver guarantees of its server lists: one descriptor per
   * name in each list, valid names, duplicate-free in-range channels, 27
   * sensors per tracker and an image shape from the table.
   */
  predicate WellFormed(s: Servers, maxChannels: int, maxButtons: int) {
    DistinctNames(s.analogServers) && (forall i :: 0 <= i < |s.analogServers| ==> AnalogOK(s.analogServers[i], maxChannels))
    && DistinctNames(s.buttonServers) && (forall i :: 0 <= i < |s.buttonServers| ==> ButtonOK(s.buttonServers[i], maxButtons))
    && DistinctNames(s.textServers) && (forall i :: 0 <= i < |s.textServers| ==> TextOK(s.textServers[i]))
    && DistinctNames(s.trackerServers) && (forall i :: 0 <= i < |s.trackerServers| ==> TrackerOK(s.trackerServers[i]))
    && DistinctNames(s.imagerServers) && (forall i :: 0 <= i < |s.imagerServers| ==> ImagerOK(s.imagerServers[i]))
  }

  lemma AppendKeepsDistinctNames(servers: seq<ServerSettings>, d: ServerSettings)
    requires DistinctNames(servers) && !HasName(servers, d.serverName)
    ensures DistinctNames(servers + [d])
  {
    forall i, j | 0 <= i < j < |servers| + 1
      ensures (servers + [d])[i].serverName != (servers + [d])[j].serverName
    {
      if j == |servers| {
        assert (servers + [d])[i] == servers[i];
      }
    }
  }

  lemma UpdateKeepsDistinctNames(servers: seq<ServerSettings>, j: nat, d: ServerSettings)
    requires DistinctNames(servers) && j < |servers| && d.serverName == servers[j].serverName
    ensures DistinctNames(servers[j := d])
  {
  }

  lemma AddUniqueKeepsDistinct(channels: seq<int>, c: int)
    requires Distinct(channels)
    ensures Distinct(AddUnique(channels, c))
    ensures forall x :: x in AddUnique(channels, c) <==> x in channels || x == c
  {
  }

  lemma {:induction false} AddChannelsWellFormed(channels: seq<int>, requests: seq<ChannelRequest>, maxChannels: int)
    requires Distinct(channels)
    requires forall i :: 0 <= i < |channels| ==> IsServerAnalogChannelValid(channels[i], maxChannels)
    ensures Distinct(AddChannels(channels, requests, maxChannels).0)
    ensures forall i :: 0 <= i < |AddChannels(channels, requests, maxChannels).0| ==>
              IsServerAnalogChannelValid(AddChannels(channels, requests, maxChannels).0[i], maxChannels)
  {
    if requests != [] {
      var front := requests[..|requests| - 1];
      AddChannelsWellFormed(channels, front, maxChannels);
      var before := AddChannels(channels, front, maxChannels).0;
      AddUniqueKeepsDistinct(before, requests[|requests| - 1].channel);
      var after := AddChannels(channels, requests, maxChannels).0;
      forall i | 0 <= i < |after| ensures IsServerAnalogChannelValid(after[i], maxChannels) {
        assert after[i] in before || after[i] == requests[|requests| - 1].channel;
      }
    }
  }

  lemma RegisterTrackerWellFormed(s: Servers, name: string, skeleton: int, maxChannels: int, maxButtons: int)
    requires WellFormed(s, maxChannels, maxButtons)
    ensures WellFormed(RegisterTracker(s, name, skeleton).servers, maxChannels, maxButtons)
  {
    if IsServerNameValid(name) && !HasName(s.trackerServers, name) {
      AppendKeepsDistinctNames(s.trackerServers, TrackerServerSettings(name, SkeletonSensorCount));
    }
  }

  lemma RegisterButtonWellFormed(s: Servers, name: string, number: int, feature: Feature, maxChannels: int, maxButtons: int)
    requires WellFormed(s, maxChannels, maxButtons)
    ensures WellFormed(RegisterButton(s, name, number, feature, maxButtons).servers, maxChannels, maxButtons)
  {
    if IsServerNameValid(name) {
      var ok := IsServerButtonNumberValid(number, maxButtons);
      match IndexOfName(s.buttonServers, name)
      case Some(j) =>
        if ok {
          ButtonMergeWellFormed(s, j, number, maxChannels, maxButtons);
        }
      case None =>
        ButtonAppendWellFormed(s, ButtonServerSettings(name, if ok then [number] else []), maxChannels, maxButtons);
    }
  }

  lemma ButtonMergeWellFormed(s: Servers, j: nat, number: int, maxChannels: int, maxButtons: int)
    requires WellFormed(s, maxChannels, maxButtons) && j < |s.buttonServers|
    requires IsServerButtonNumberValid(number, maxButtons)
    ensures var b := s.buttonServers[j];
      WellFormed(s.(buttonServers := s.buttonServers[j := b.(uniqueChannels := AddUnique(b.uniqueChannels, number))]),
                 maxChannels, maxButtons)
  {
    var b := s.buttonServers[j];
    var b' := b.(uniqueChannels := AddUnique(b.uniqueChannels, number));
    AddUniqueKeepsDistinct(b.uniqueChannels, number);
    UpdateKeepsDistinctNames(s.buttonServers, j, b');
    assert ButtonOK(b', maxButtons);
  }

  lemma ButtonAppendWellFormed(s: Servers, b: ServerSettings, maxChannels: int, maxButtons: int)
    requires WellFormed(s, maxChannels, maxButtons) && ButtonOK(b, maxButtons) && !HasName(s.buttonServers, b.serverName)
    ensures WellFormed(s.(buttonServers := s.buttonServers + [b]), maxChannels, maxButtons)
  {
    AppendKeepsDistinctNames(s.buttonServers, b);
    var bs := s.buttonServers + [b];
    forall i | 0 <= i < |bs| ensures ButtonOK(bs[i], maxButtons) {
      if i < |s.buttonServers| { assert bs[i] == s.buttonServers[i]; }
    }
  }

  lemma RegisterAnalogWellFormed(s: Servers, name: string, nameFeature: Feature, requests: seq<ChannelRequest>,
                                 maxChannels: int, maxButtons: int)
    requires WellFormed(s, maxChannels, maxButtons)
    ensures WellFormed(RegisterAnalog(s, name, nameFeature, requests, maxChannels).servers, maxChannels, maxButtons)
  {
    if IsServerNameValid(name) {
      match IndexOfName(s.analogServers, name)
      case Some(j) =>
        var a := s.analogServers[j];
        AddChannelsWellFormed(a.uniqueChannels, requests, maxChannels);
        UpdateKeepsDistinctNames(s.analogServers, j, a.(uniqueChannels := AddChannels(a.uniqueChannels, requests, maxChannels).0));
      case None =>
        AddChannelsWellFormed([], requests, maxChannels);
        AppendKeepsDistinctNames(s.analogServers, AnalogServerSettings(name, AddChannels([], requests, maxChannels).0));
    }
  }

  lemma RegisterTextWellFormed(s: Servers, name: string, word: string, maxChannels: int, maxButtons: int)
    requires WellFormed(s, maxChannels, maxButtons)
    ensures WellFormed(RegisterText(s, name, word).servers, maxChannels, maxButtons)
  {
    if IsServerNameValid(name) && !HasName(s.textServers, name) {
      AppendKeepsDistinctNames(s.textServers, TextServerSettings(name));
    }
  }

  lemma RegisterImagerWellFormed(s: Servers, name: string, feature: Feature, shape: Option<ImageShape>,
                                 maxChannels: int, maxButtons: int)
    requires WellFormed(s, maxChannels, maxButtons)
    requires shape.Some? ==> IsTableShape(shape.value.rows, shape.value.columns, shape.value.isColor)
    ensures WellFormed(RegisterImager(s, name, feature, shape).servers, maxChannels, maxButtons)
  {
    if IsServerNameValid(name) && !HasName(s.imagerServers, name) && shape.Some? {
      var sh := shape.value;
      AppendKeepsDistinctNames(s.imagerServers, ImagerServerSettings(name, sh.rows, sh.columns, sh.isColor));
    }
  }

  lemma ParseSkeletonWellFormed(s: Servers, sk: PerSkeletonSettings, i: int, maxChannels: int, maxButtons: int)
    requires WellFormed(s, maxChannels, maxButtons)
    ensures WellFormed(ParseSkeleton(s, sk, i, maxButtons).servers, maxChannels, maxButtons)
  {
    if sk.useSkeleton {
      RegisterTrackerWellFormed(s, sk.serverName, i, maxChannels, maxButtons);
      var t := RegisterTracker(s, sk.serverName, i);
      if sk.useRightHandGrip {
        RegisterButtonWellFormed(t.servers, sk.rightGripServerName, sk.rightGripButtonNumber, RightGrip(i), maxChannels, maxButtons);
      }
      var r := if sk.useRightHandGrip then RegisterButton(t.servers, sk.rightGripServerName, sk.rightGripButtonNumber, RightGrip(i), maxButtons)
               else Parsed(t.servers, [], true);
      if sk.useLeftHandGrip {
        RegisterButtonWellFormed(r.servers, sk.leftGripServerName, sk.leftGripButtonNumber, LeftGrip(i), maxChannels, maxButtons);
      }
    }
  }

  lemma {:induction false} ParseIndividualSkeletonsWellFormed(s: Servers, sks: seq<PerSkeletonSettings>, maxChannels: int, maxButtons: int)
    requires WellFormed(s, maxChannels, maxButtons)
    ensures WellFormed(ParseIndividualSkeletons(s, sks, maxButtons).servers, maxChannels, maxButtons)
  {
    if sks != [] {
      ParseIndividualSkeletonsWellFormed(s, sks[..|sks| - 1], maxChannels, maxButtons);
      var before := ParseIndividualSkeletons(s, sks[..|sks| - 1], maxButtons);
      ParseSkeletonWellFormed(before.servers, sks[|sks| - 1], |sks| - 1, maxChannels, maxButtons);
    }
  }

  lemma {:induction false} ParseRawSkeletonsWellFormed(s: Servers, kinects: seq<KinectSettings>, maxChannels: int, maxButtons: int)
    requires WellFormed(s, maxChannels, maxButtons)
    ensures WellFormed(ParseRawSkeletons(s, kinects, maxButtons).servers, maxChannels, maxButtons)
  {
    if kinects != [] {
      ParseRawSkeletonsWellFormed(s, kinects[..|kinects| - 1], maxChannels, maxButtons);
      var before := ParseRawSkeletons(s, kinects[..|kinects| - 1], maxButtons);
      var k := kinects[|kinects| - 1];
      if !k.NetworkedKinectSettings? && k.sendRawSkeletons {
        ParseIndividualSkeletonsWellFormed(before.servers, k.rawSkeletons, maxChannels, maxButtons);
      }
    }
  }

  lemma {:induction false} ParseVoiceCommandsWellFormed(s: Servers, vs: seq<VoiceCommand>, maxChannels: int, maxButtons: int)
    requires WellFormed(s, maxChannels, maxButtons)
    ensures WellFormed(ParseVoiceCommands(s, vs, maxButtons).servers, maxChannels, maxButtons)
  {
    if vs != [] {
      ParseVoiceCommandsWellFormed(s, vs[..|vs| - 1], maxChannels, maxButtons);
      var before := ParseVoiceCommands(s, vs[..|vs| - 1], maxButtons);
      var v := vs[|vs| - 1];
      if v.serverType == Button {
        RegisterButtonWellFormed(before.servers, v.serverName, v.buttonNumber, Voice(v.recognizedWord), maxChannels, maxButtons);
      } else if v.serverType == Text {
        RegisterTextWellFormed(before.servers, v.serverName, v.recognizedWord, maxChannels, maxButtons);
      }
    }
  }

  lemma ParseKinectV1WellFormed(s: Servers, k: KinectSettings, maxChannels: int, maxButtons: int)
    requires k.KinectV1Settings? && WellFormed(s, maxChannels, maxButtons)
    ensures WellFormed(ParseKinectV1(s, k, maxChannels).servers, maxChannels, maxButtons)
  {
    var p0 := Parsed(s, [], true);
    RegisterAnalogWellFormed(p0.servers, k.accelerationServerName, Acceleration(k.kinectID), AccelerationRequests(k), maxChannels, maxButtons);
    var p1 := AnalogStep(p0, k.sendAcceleration, k.accelerationServerName, Acceleration(k.kinectID), AccelerationRequests(k), maxChannels);
    RegisterAnalogWellFormed(p1.servers, k.audioAngleServerName, AudioAngle(k.kinectID), AudioAngleRequests(k), maxChannels, maxButtons);
    var p2 := AnalogStep(p1, k.sendAudioAngle, k.audioAngleServerName, AudioAngle(k.kinectID), AudioAngleRequests(k), maxChannels);
    RegisterImagerWellFormed(p2.servers, k.colorServerName, ColorImager(k.kinectID), V1ColorShape(k.colorImageMode), maxChannels, maxButtons);
    var p3 := ImagerStep(p2, k.sendColorImage, k.colorServerName, ColorImager(k.kinectID), V1ColorShape(k.colorImageMode));
    RegisterImagerWellFormed(p3.servers, k.depthServerName, DepthImager(k.kinectID), V1DepthShape(k.depthImageMode), maxChannels, maxButtons);
  }

  lemma ParseKinectV2WellFormed(s: Servers, k: KinectSettings, maxChannels: int, maxButtons: int)
    requires k.KinectV2Settings? && WellFormed(s, maxChannels, maxButtons)
    ensures WellFormed(ParseKinectV2(s, k, maxChannels).servers, maxChannels, maxButtons)
  {
    var p0 := Parsed(s, [], true);
    RegisterAnalogWellFormed(p0.servers, k.audioAngleServerName, AudioAngle(k.kinectID), AudioAngleRequests(k), maxChannels, maxButtons);
    var p1 := AnalogStep(p0, k.sendAudioAngle, k.audioAngleServerName, AudioAngle(k.kinectID), AudioAngleRequests(k), maxChannels);
    RegisterImagerWellFormed(p1.servers, k.colorServerName, ColorImager(k.kinectID), Some(V2ColorShape), maxChannels, maxButtons);
    var p2 := ImagerStep(p1, k.sendColorImage, k.colorServerName, ColorImager(k.kinectID), Some(V2ColorShape));
    RegisterImagerWellFormed(p2.servers, k.depthServerName, DepthImager(k.kinectID), Some(V2DepthShape), maxChannels, maxButtons);
    var p3 := ImagerStep(p2, k.sendDepthImage, k.depthServerName, DepthImager(k.kinectID), Some(V2DepthShape));
    RegisterImagerWellFormed(p3.servers, k.irServerName, IRImager(k.kinectID), Some(V2IRShape), maxChannels, maxButtons);
  }

  lemma {:induction false} ParseKinectsWellFormed(s: Servers, kinects: seq<KinectSettings>, maxChannels: int, maxButtons: int)
    requires WellFormed(s, maxChannels, maxButtons)
    ensures WellFormed(ParseKinects(s, kinects, maxChannels).servers, maxChannels, maxButtons)
  {
    if kinects != [] {
      ParseKinectsWellFormed(s, kinects[..|kinects| - 1], maxChannels, maxButtons);
      var before := ParseKinects(s, kinects[..|kinects| - 1], maxChannels);
      var k := kinects[|kinects| - 1];
      if k.KinectV1Settings? {
        ParseKinectV1WellFormed(before.servers, k, maxChannels, maxButtons);
      } else if k.KinectV2Settings? {
        ParseKinectV2WellFormed(before.servers, k, maxChannels, maxButtons);
      }
    }
  }

  /** Whatever the options, the resolved server lists are well formed. */
  lemma ParseSettingsWellFormed(merged: seq<PerSkeletonSettings>, kinects: seq<KinectSettings>, voice: seq<VoiceCommand>,
                                maxChannels: int, maxButtons: int)
    ensures WellFormed(ParseSettings(merged, kinects, voice, maxChannels, maxButtons).servers, maxChannels, maxButtons)
  {
    ParseIndividualSkeletonsWellFormed(NoServers, merged, maxChannels, maxButtons);
    var p1 := ParseIndividualSkeletons(NoServers, merged, maxButtons);
    ParseRawSkeletonsWellFormed(p1.servers, kinects, maxChannels, maxButtons);
    var p2 := ParseRawSkeletons(p1.servers, kinects, maxButtons);
    ParseVoiceCommandsWellFormed(p2.servers, voice, maxChannels, maxButtons);
    var p3 := ParseVoiceCommands(p2.servers, voice, maxButtons);
    ParseKinectsWellFormed(p3.servers, kinects, maxChannels, maxButtons);
  }

  // ------------------------------------------------------ completeness

  /** A grip or voice button request is served: its server exists and holds a valid number. */
  predicate ButtonServed(s: Servers, use: bool, name: string, number: int, maxButtons: int) {
    use && IsServerNameValid(name) ==>
      HasName(s.buttonServers, name)
      && (IsServerButtonNumberValid(number, maxButtons) ==> HasChannel(s.buttonServers, name, number))
  }

  predicate SkeletonServed(s: Servers, sk: PerSkeletonSettings, maxButtons: int) {
    sk.useSkeleton ==>
      (IsServerNameValid(sk.serverName) ==> HasName(s.trackerServers, sk.serverName))
      && ButtonServed(s, sk.useRightHandGrip, sk.rightGripServerName, sk.rightGripButtonNumber, maxButtons)
      && ButtonServed(s, sk.useLeftHandGrip, sk.leftGripServerName, sk.leftGripButtonNumber, maxButtons)
  }

  predicate VoiceServed(s: Servers, v: VoiceCommand, maxButtons: int) {
    ButtonServed(s, v.serverType == Button, v.serverName, v.buttonNumber, maxButtons)
    && (v.serverType == Text && IsServerNameValid(v.serverName) ==> HasName(s.textServers, v.serverName))
  }

  predicate AnalogServed(s: Servers, use: bool, name: string, requests: seq<ChannelRequest>, maxChannels: int) {
    use && IsServerNameValid(name) ==>
      HasName(s.analogServers, name)
      && forall i :: 0 <= i < |requests| && IsServerAnalogChannelValid(requests[i].channel, maxChannels) ==>
           HasChannel(s.analogServers, name, requests[i].channel)
  }

  /** An imager request is served by a server of that name (which may predate it). */
  predicate ImagerServed(s: Servers, use: bool, name: string, shape: Option<ImageShape>) {
    use && IsServerNameValid(name) && shape.Some? ==> HasName(s.imagerServers, name)
  }

  predicate KinectServed(s: Servers, k: KinectSettings, maxChannels: int) {
    match k
    case KinectV1Settings(_, _, _, _, _, _, _, _, _, _, _, _, _, _, _, _, _, _) =>
      AnalogServed(s, k.sendAcceleration, k.accelerationServerName, AccelerationRequests(k), maxChannels)
      && AnalogServed(s, k.sendAudioAngle, k.audioAngleServerName, AudioAngleRequests(k), maxChannels)
      && ImagerServed(s, k.sendColorImage, k.colorServerName, V1ColorShape(k.colorImageMode))
      && ImagerServed(s, k.sendDepthImage, k.depthServerName, V1DepthShape(k.depthImageMode))
    case KinectV2Settings(_, _, _, _, _, _, _, _, _, _, _, _, _) =>
      AnalogServed(s, k.sendAudioAngle, k.audioAngleServerName, AudioAngleRequests(k), maxChannels)
      && ImagerServed(s, k.sendColorImage, k.colorServerName, Some(V2ColorShape))
      && ImagerServed(s, k.sendDepthImage, k.depthServerName, Some(V2DepthShape))
      && ImagerServed(s, k.sendIRImage, k.irServerName, Some(V2IRShape))
    case NetworkedKinectSettings(_, _) => true
  }

  /** The raw-skeleton slots of a sensor that sends raw skeletons are all served. */
  predicate RawServed(s: Servers, k: KinectSettings, maxButtons: int) {
    !k.NetworkedKinectSettings? && k.sendRawSkeletons ==>
      forall i :: 0 <= i < |k.rawSkeletons| ==> SkeletonServed(s, k.rawSkeletons[i], maxButtons)
  }

  lemma GrowsTransitive(a: Servers, b: Servers, c: Servers)
    requires Grows(a, b) && Grows(b, c)
    ensures Grows(a, c)
  {
  }

  /** Served requests stay served as the resolution goes on. */
  lemma ServedGrows(a: Servers, b: Servers, maxChannels: int, maxButtons: int)
    requires Grows(a, b)
    ensures forall sk :: SkeletonServed(a, sk, maxButtons) ==> SkeletonServed(b, sk, maxButtons)
    ensures forall v :: VoiceServed(a, v, maxButtons) ==> VoiceServed(b, v, maxButtons)
    ensures forall k :: KinectServed(a, k, maxChannels) ==> KinectServed(b, k, maxChannels)
    ensures forall k :: RawServed(a, k, maxButtons) ==> RawServed(b, k, maxButtons)
    ensures forall use, name, requests :: AnalogServed(a, use, name, requests, maxChannels) ==> AnalogServed(b, use, name, requests, maxChannels)
    ensures forall use, name, shape :: ImagerServed(a, use, name, shape) ==> ImagerServed(b, use, name, shape)
  {
    forall name | HasName(a.trackerServers, name) ensures HasName(b.trackerServers, name) {
      var j :| 0 <= j < |a.trackerServers| && a.trackerServers[j].serverName == name;
      assert b.trackerServers[j].serverName == name;
    }
    forall name | HasName(a.textServers, name) ensures HasName(b.textServers, name) {
      var j :| 0 <= j < |a.textServers| && a.textServers[j].serverName == name;
      assert b.textServers[j].serverName == name;
    }
    forall name | HasName(a.imagerServers, name) ensures HasName(b.imagerServers, name) {
      var j :| 0 <= j < |a.imagerServers| && a.imagerServers[j].serverName == name;
      assert b.imagerServers[j].serverName == name;
    }
    forall name | HasName(a.buttonServers, name) ensures HasName(b.buttonServers, name) {
      var j :| 0 <= j < |a.buttonServers| && a.buttonServers[j].serverName == name;
      assert b.buttonServers[j].serverName == name;
    }
    forall name | HasName(a.analogServers, name) ensures HasName(b.analogServers, name) {
      var j :| 0 <= j < |a.analogServers| && a.analogServers[j].serverName == name;
      assert b.analogServers[j].serverName == name;
    }
    forall name, c | HasChannel(a.buttonServers, name, c) ensures HasChannel(b.buttonServers, name, c) {
      var j :| 0 <= j < |a.buttonServers| && a.buttonServers[j].serverName == name && c in Channels(a.buttonServers[j]);
      assert b.buttonServers[j].serverName == name && c in Channels(b.buttonServers[j]);
    }
    forall name, c | HasChannel(a.analogServers, name, c) ensures HasChannel(b.analogServers, name, c) {
      var j :| 0 <= j < |a.analogServers| && a.analogServers[j].serverName == name && c in Channels(a.analogServers[j]);
      assert b.analogServers[j].serverName == name && c in Channels(b.analogServers[j]);
    }
  }

  lemma ParseSkeletonServes(s: Servers, sk: PerSkeletonSettings, i: int, maxButtons: int)
    requires Typed(s)
    ensures SkeletonServed(ParseSkeleton(s, sk, i, maxButtons).servers, sk, maxButtons)
  {
    if sk.useSkeleton {
      var t := RegisterTracker(s, sk.serverName, i);
      var r := if sk.useRightHandGrip then RegisterButton(t.servers, sk.rightGripServerName, sk.rightGripButtonNumber, RightGrip(i), maxButtons)
               else Parsed(t.servers, [], true);
      var l := if sk.useLeftHandGrip then RegisterButton(r.servers, sk.leftGripServerName, sk.leftGripButtonNumber, LeftGrip(i), maxButtons)
               else Parsed(r.servers, [], true);
      ServedGrows(t.servers, r.servers, 0, maxButtons);
      ServedGrows(r.servers, l.servers, 0, maxButtons);
      assert Grows(t.servers, r.servers) && Grows(r.servers, l.servers);
      var tracked := sk.(useRightHandGrip := false, useLeftHandGrip := false);
      assert SkeletonServed(t.servers, tracked, maxButtons);
      assert SkeletonServed(l.servers, tracked, maxButtons);
      var right := sk.(serverName := "", useLeftHandGrip := false);
      assert SkeletonServed(r.servers, right, maxButtons);
      assert SkeletonServed(l.servers, right, maxButtons);
    }
  }

  lemma {:induction false} ParseIndividualSkeletonsServes(s: Servers, sks: seq<PerSkeletonSettings>, maxButtons: int)
    requires Typed(s)
    ensures forall i :: 0 <= i < |sks| ==> SkeletonServed(ParseIndividualSkeletons(s, sks, maxButtons).servers, sks[i], maxButtons)
  {
    if sks != [] {
      var front := sks[..|sks| - 1];
      ParseIndividualSkeletonsServes(s, front, maxButtons);
      var before := ParseIndividualSkeletons(s, front, maxButtons);
      var last := ParseSkeleton(before.servers, sks[|sks| - 1], |sks| - 1, maxButtons);
      ParseSkeletonServes(before.servers, sks[|sks| - 1], |sks| - 1, maxButtons);
      ServedGrows(before.servers, last.servers, 0, maxButtons);
      forall i | 0 <= i < |sks| ensures SkeletonServed(last.servers, sks[i], maxButtons) {
        if i < |sks| - 1 {
          assert sks[i] == front[i];
        }
      }
    }
  }

  lemma {:induction false} ParseRawSkeletonsServes(s: Servers, kinects: seq<KinectSettings>, maxButtons: int)
    requires Typed(s)
    ensures forall i :: 0 <= i < |kinects| ==> RawServed(ParseRawSkeletons(s, kinects, maxButtons).servers, kinects[i], maxButtons)
  {
    if kinects != [] {
      var front := kinects[..|kinects| - 1];
      ParseRawSkeletonsServes(s, front, maxButtons);
      var before := ParseRawSkeletons(s, front, maxButtons);
      var k := kinects[|kinects| - 1];
      var last := if !k.NetworkedKinectSettings? && k.sendRawSkeletons
                  then ParseIndividualSkeletons(before.servers, k.rawSkeletons, maxButtons)
                  else Parsed(before.servers, [], true);
      if !k.NetworkedKinectSettings? && k.sendRawSkeletons {
        ParseIndividualSkeletonsServes(before.servers, k.rawSkeletons, maxButtons);
      }
      ServedGrows(before.servers, last.servers, 0, maxButtons);
      forall i | 0 <= i < |kinects| ensures RawServed(last.servers, kinects[i], maxButtons) {
        if i < |kinects| - 1 {
          assert kinects[i] == front[i];
        }
      }
    }
  }

  lemma {:induction false} ParseVoiceCommandsServes(s: Servers, vs: seq<VoiceCommand>, maxButtons: int)
    requires Typed(s)
    ensures forall i :: 0 <= i < |vs| ==> VoiceServed(ParseVoiceCommands(s, vs, maxButtons).servers, vs[i], maxButtons)
  {
    if vs != [] {
      var front := vs[..|vs| - 1];
      ParseVoiceCommandsServes(s, front, maxButtons);
      var before := ParseVoiceCommands(s, front, maxButtons);
      var last := ParseVoiceCommand(before.servers, vs[|vs| - 1], maxButtons);
      ServedGrows(before.servers, last.servers, 0, maxButtons);
      forall i | 0 <= i < |vs| ensures VoiceServed(last.servers, vs[i], maxButtons) {
        if i < |vs| - 1 {
          assert vs[i] == front[i];
        }
      }
    }
  }

  lemma ParseKinectV1Serves(s: Servers, k: KinectSettings, maxChannels: int)
    requires Typed(s) && k.KinectV1Settings?
    ensures KinectServed(ParseKinectV1(s, k, maxChannels).servers, k, maxChannels)
  {
    var p0 := Parsed(s, [], true);
    var p1 := AnalogStep(p0, k.sendAcceleration, k.accelerationServerName, Acceleration(k.kinectID), AccelerationRequests(k), maxChannels);
    var p2 := AnalogStep(p1, k.sendAudioAngle, k.audioAngleServerName, AudioAngle(k.kinectID), AudioAngleRequests(k), maxChannels);
    var p3 := ImagerStep(p2, k.sendColorImage, k.colorServerName, ColorImager(k.kinectID), V1ColorShape(k.colorImageMode));
    var p4 := ImagerStep(p3, k.sendDepthImage, k.depthServerName, DepthImager(k.kinectID), V1DepthShape(k.depthImageMode));
    assert AnalogServed(p1.servers, k.sendAcceleration, k.accelerationServerName, AccelerationRequests(k), maxChannels);
    ServedGrows(p1.servers, p2.servers, maxChannels, 0);
    assert AnalogServed(p2.servers, k.sendAudioAngle, k.audioAngleServerName, AudioAngleRequests(k), maxChannels);
    ServedGrows(p2.servers, p3.servers, maxChannels, 0);
    assert ImagerServed(p3.servers, k.sendColorImage, k.colorServerName, V1ColorShape(k.colorImageMode));
    ServedGrows(p3.servers, p4.servers, maxChannels, 0);
  }

  lemma ParseKinectV2Serves(s: Servers, k: KinectSettings, maxChannels: int)
    requires Typed(s) && k.KinectV2Settings?
    ensures KinectServed(ParseKinectV2(s, k, maxChannels).servers, k, maxChannels)
  {
    var p0 := Parsed(s, [], true);
    var p1 := AnalogStep(p0, k.sendAudioAngle, k.audioAngleServerName, AudioAngle(k.kinectID), AudioAngleRequests(k), maxChannels);
    var p2 := ImagerStep(p1, k.sendColorImage, k.colorServerName, ColorImager(k.kinectID), Some(V2ColorShape));
    var p3 := ImagerStep(p2, k.sendDepthImage, k.depthServerName, DepthImager(k.kinectID), Some(V2DepthShape));
    var p4 := ImagerStep(p3, k.sendIRImage, k.irServerName, IRImager(k.kinectID), Some(V2IRShape));
    assert AnalogServed(p1.servers, k.sendAudioAngle, k.audioAngleServerName, AudioAngleRequests(k), maxChannels);
    ServedGrows(p1.servers, p2.servers, maxChannels, 0);
    assert ImagerServed(p2.servers, k.sendColorImage, k.colorServerName, Some(V2ColorShape));
    ServedGrows(p2.servers, p3.servers, maxChannels, 0);
    assert ImagerServed(p3.servers, k.sendDepthImage, k.depthServerName, Some(V2DepthShape));
    ServedGrows(p3.servers, p4.servers, maxChannels, 0);
  }

  lemma ParseKinectServes(s: Servers, k: KinectSettings, maxChannels: int)
    requires Typed(s)
    ensures KinectServed(ParseKinect(s, k, maxChannels).servers, k, maxChannels)
  {
    if k.KinectV1Settings? {
      ParseKinectV1Serves(s, k, maxChannels);
    } else if k.KinectV2Settings? {
      ParseKinectV2Serves(s, k, maxChannels);
    }
  }

  lemma {:induction false} ParseKinectsServes(s: Servers, kinects: seq<KinectSettings>, maxChannels: int)
    requires Typed(s)
    ensures forall i :: 0 <= i < |kinects| ==> KinectServed(ParseKinects(s, kinects, maxChannels).servers, kinects[i], maxChannels)
  {
    if kinects != [] {
      var front := kinects[..|kinects| - 1];
      ParseKinectsServes(s, front, maxChannels);
      var before := ParseKinects(s, front, maxChannels);
      var last := ParseKinect(before.servers, kinects[|kinects| - 1], maxChannels);
      ParseKinectServes(before.servers, kinects[|kinects| - 1], maxChannels);
      ServedGrows(before.servers, last.servers, maxChannels, 0);
      forall i | 0 <= i < |kinects| ensures KinectServed(last.servers, kinects[i], maxChannels) {
        if i < |kinects| - 1 {
          assert kinects[i] == front[i];
        }
      }
    }
  }

  /**
   * Every valid request is served by the final server lists: each used
   * skeleton's tracker and grip buttons, each voice command's server and
   * button, each sensor's analog channels and imagers.
   */
  lemma ParseSettingsServesAll(merged: seq<PerSkeletonSettings>, kinects: seq<KinectSettings>, voice: seq<VoiceCommand>,
                               maxChannels: int, maxButtons: int)
    ensures var r := ParseSettings(merged, kinects, voice, maxChannels, maxButtons).servers;
      (forall i :: 0 <= i < |merged| ==> SkeletonServed(r, merged[i], maxButtons))
      && (forall i :: 0 <= i < |kinects| ==> RawServed(r, kinects[i], maxButtons))
      && (forall i :: 0 <= i < |voice| ==> VoiceServed(r, voice[i], maxButtons))
      && (forall i :: 0 <= i < |kinects| ==> KinectServed(r, kinects[i], maxChannels))
  {
    var p1 := ParseIndividualSkeletons(NoServers, merged, maxButtons);
    var p2 := ParseRawSkeletons(p1.servers, kinects, maxButtons);
    var p3 := ParseVoiceCommands(p2.servers, voice, maxButtons);
    var p4 := ParseKinects(p3.servers, kinects, maxChannels);
    ParseIndividualSkeletonsServes(NoServers, merged, maxButtons);
    ParseRawSkeletonsServes(p1.servers, kinects, maxButtons);
    ParseVoiceCommandsServes(p2.servers, voice, maxButtons);
    ParseKinectsServes(p3.servers, kinects, maxChannels);
    GrowsTransitive(p1.servers, p2.servers, p3.servers);
    GrowsTransitive(p1.servers, p3.servers, p4.servers);
    GrowsTransitive(p2.servers, p3.servers, p4.servers);
    ServedGrows(p1.servers, p4.servers, maxChannels, maxButtons);
    ServedGrows(p2.servers, p4.servers, maxChannels, maxButtons);
    ServedGrows(p3.servers, p4.servers, maxChannels, maxButtons);
  }

  // ------------------------------------------------------ errors and scenarios

  /** The message of a longer error list extends the message of its prefix: texts are only appended. */
  lemma {:induction false} JoinAppend<T>(a: seq<T>, b: seq<T>, text: T -> string)
    ensures Join(a + b, text) == Join(a, text) + Join(b, text)
  {
    if b == [] {
      assert a + b == a;
    } else {
      var front, last := b[..|b| - 1], b[|b| - 1];
      JoinAppend(a, front, text);
      assert (a + b)[..|a + b| - 1] == a + front;
      assert Join(a + b, text) == Join(a + front, text) + text(last);
      assert Join(b, text) == Join(front, text) + text(last);
    }
  }

  /** The message of a longer error list extends the message of its prefix: texts are only appended. */
  lemma ErrorMessageAppend(a: seq<SettingsError>, b: seq<SettingsError>)
    ensures ErrorMessage(a + b) == ErrorMessage(a) + ErrorMessage(b)
  {
    JoinAppend(a, b, ErrorText);
  }

  /** A first-generation sensor with only an acceleration output and a colour imager. */
  function AccelerationAndColor(accelerationServerName: string, colorServerName: string): (k: KinectSettings)
    ensures k.KinectV1Settings? && k.sendAcceleration && k.sendColorImage
  {
    KinectV1Settings(0, false, false, [], true, accelerationServerName, 0, 1, 2, false, "", 0,
                     true, colorServerName, RgbResolution640x480Fps30, false, "", UndefinedDepthFormat)
  }

  /**
   * A registered imager sets the sensor's result back to true: an invalid
   * acceleration server name followed by a valid colour imager yields a
   * valid overall result although an error was reported.
   */
  lemma ImagerRegistrationResetsValidity()
    ensures var r := ParseSettings([], [AccelerationAndColor("", "Color")], [], 64, 64);
      r.valid && r.errors == [InvalidServerName(Acceleration(0), "")]
      && r.servers.imagerServers == [ImagerServerSettings("Color", 480, 640, true)]
  {
    assert !IsServerNameValid("");
    assert IsServerNameValid("Color") by {
      var n := "Color";
      assert forall i :: 0 <= i < |n| ==> IsAsciiLetterOrDigit(n[i]);
    }
    var k := AccelerationAndColor("", "Color");
    var p1 := ParseKinectV1(NoServers, k, 64);
    assert ParseKinects(NoServers, [k], 64).errors == p1.errors;
  }

  lemma ParseSingleSkeleton(s: Servers, sk: PerSkeletonSettings, maxButtons: int)
    requires Typed(s)
    ensures ParseIndividualSkeletons(s, [sk], maxButtons) == ParseSkeleton(s, sk, 0, maxButtons)
  {
    assert [sk][..0] == [];
  }

  lemma ParseSingleVoiceCommand(s: Servers, v: VoiceCommand, maxButtons: int)
    requires Typed(s)
    ensures ParseVoiceCommands(s, [v], maxButtons) == ParseVoiceCommand(s, v, maxButtons)
  {
    assert [v][..0] == [];
  }

  lemma GripRegistersHand1()
    ensures var grip := PerSkeletonSettings(true, "Tracker0", true, "Hand1", 5, false, "", 0);
            var p := ParseSkeleton(NoServers, grip, 0, 64);
      p.valid && p.servers.buttonServers == [ButtonServerSettings("Hand1", [5])]
  {
    assert IsServerNameValid("Tracker0") by {
      var n := "Tracker0";
      assert forall i :: 0 <= i < |n| ==> IsAsciiLetterOrDigit(n[i]);
    }
    assert IsServerNameValid("Hand1") by {
      var n := "Hand1";
      assert forall i :: 0 <= i < |n| ==> IsAsciiLetterOrDigit(n[i]);
    }
    var t := RegisterTracker(NoServers, "Tracker0", 0);
    assert t.valid && t.servers.buttonServers == [];
  }

  lemma VoiceReusesHand1(s: Servers)
    requires Typed(s) && s.buttonServers == [ButtonServerSettings("Hand1", [5])]
    ensures var p := ParseVoiceCommand(s, VoiceCommand("go", "Hand1", Button, 5), 64);
      p.valid && p.servers.buttonServers == [ButtonServerSettings("Hand1", [5])]
  {
    assert IsServerNameValid("Hand1") by {
      var n := "Hand1";
      assert forall i :: 0 <= i < |n| ==> IsAsciiLetterOrDigit(n[i]);
    }
    assert IndexOfName(s.buttonServers, "Hand1") == Some(0);
    assert AddUnique([5], 5) == [5];
  }

  /** The same button number requested by a grip and by a voice command is held once. */
  lemma SharedButtonMerged()
    ensures var grip := PerSkeletonSettings(true, "Tracker0", true, "Hand1", 5, false, "", 0);
            var word := VoiceCommand("go", "Hand1", Button, 5);
            var r := ParseSettings([grip], [], [word], 64, 64);
      r.valid && r.servers.buttonServers == [ButtonServerSettings("Hand1", [5])]
  {
    var grip := PerSkeletonSettings(true, "Tracker0", true, "Hand1", 5, false, "", 0);
    var word := VoiceCommand("go", "Hand1", Button, 5);
    ParseSingleSkeleton(NoServers, grip, 64);
    GripRegistersHand1();
    var p1 := ParseIndividualSkeletons(NoServers, [grip], 64);
    var p2 := ParseRawSkeletons(p1.servers, [], 64);
    ParseSingleVoiceCommand(p2.servers, word, 64);
    VoiceReusesHand1(p2.servers);
  }

  // ------------------------------------------------------ the name check

  /** The check as written lets a name with a trailing line feed through. */
  lemma TrailingLineFeedAccepted()
    ensures IsServerNameValidAsWritten("Tracker0\n") && !IsServerNameValid("Tracker0\n")
  {
    var n := "Tracker0\n";
    assert n[..|n| - 1] == "Tracker0";
    assert AllLettersOrDigits("Tracker0") by {
      var m := "Tracker0";
      assert forall i :: 0 <= i < |m| ==> IsAsciiLetterOrDigit(m[i]);
    }
    assert !IsAsciiLetterOrDigit(n[|n| - 1]);
  }

  /** Every valid name followed by a line feed passes the check as written. */
  lemma AsWrittenAcceptsLineFeed(name: string)
    requires IsServerNameValid(name)
    ensures IsServerNameValidAsWritten(name) && IsServerNameValidAsWritten(name + "\n")
  {
    assert (name + "\n")[..|name|] == name;
  }

  /** A valid name holds letters and digits only, so never a line feed or any other separator. */
  lemma ValidNameHasNoSeparator(name: string)
    requires IsServerNameValid(name)
    ensures forall c :: c in name ==> IsAsciiLetterOrDigit(c)
    ensures '\n' !in name && ' ' !in name && !IsServerNameValid(name + "\n")
  {
    assert !IsAsciiLetterOrDigit('\n') && !IsAsciiLetterOrDigit(' ');
    assert (name + "\n")[|name|] == '\n';
  }
}
