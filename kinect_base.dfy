/**
 * The shared data model of the sensors (KinectBase/HelperMethods.cs): joints,
 * the fixed-size joint container of one skeleton, a skeleton, and the per-sensor
 * snapshot that the merge buffer holds.
 */
module KinectBase {
  import opened Wrappers
  import opened Geometry

  /**
   * The joint types. The enum declaration is not part of this model: the 25
   * named members are the ones the joint-to-wire table names, in that table's
   * order; `Unmapped1`..`Unmapped3` stand for the three members it does not
   * name. Nothing proved below depends on this order; it is only read through
   * `Ordinal` and `JointAt`.
   */
  datatype JointType =
    | Head | ShoulderCenter | Spine | HipCenter
    | ShoulderLeft | ElbowLeft | WristLeft | HandLeft | HandTipLeft
    | ShoulderRight | ElbowRight | WristRight | HandRight | HandTipRight
    | HipLeft | KneeLeft | AnkleLeft | FootLeft
    | HipRight | KneeRight | AnkleRight | FootRight
    | Neck | ThumbLeft | ThumbRight
    | Unmapped1 | Unmapped2 | Unmapped3

  datatype TrackingState = NotTracked | Inferred | Tracked

  datatype TrackingConfidence = Unknown | Low | High

  datatype Joint = Joint(
    jointType: JointType,
    position: Point3,
    orientation: Quaternion,
    trackingState: TrackingState,
    confidence: TrackingConfidence)

  /** The number of members of the joint-type enum, and so of joint slots. */
  const TotalJoints: nat := 28

  /** The integer value of a joint type, the `(int)` cast. */
  function Ordinal(j: JointType): (i: nat)
    ensures i < TotalJoints && JointAt(i) == j
  {
    match j
    case Head => 0 case ShoulderCenter => 1 case Spine => 2 case HipCenter => 3
    case ShoulderLeft => 4 case ElbowLeft => 5 case WristLeft => 6 case HandLeft => 7
    case HandTipLeft => 8 case ShoulderRight => 9 case ElbowRight => 10
    case WristRight => 11 case HandRight => 12 case HandTipRight => 13 case HipLeft => 14
    case KneeLeft => 15 case AnkleLeft => 16 case FootLeft => 17 case HipRight => 18
    case KneeRight => 19 case AnkleRight => 20 case FootRight => 21 case Neck => 22
    case ThumbLeft => 23 case ThumbRight => 24 case Unmapped1 => 25 case Unmapped2 => 26
    case Unmapped3 => 27
  }

  /** The joint type with integer value `i`, the `(JointType)i` cast. */
  function JointAt(i: nat): (j: JointType)
    requires i < TotalJoints
  {
    if i == 0 then Head else if i == 1 then ShoulderCenter else if i == 2 then Spine else if i == 3 then HipCenter else
    if i == 4 then ShoulderLeft else if i == 5 then ElbowLeft else if i == 6 then WristLeft else if i == 7 then HandLeft else
    if i == 8 then HandTipLeft else if i == 9 then ShoulderRight else if i == 10 then ElbowRight else if i == 11 then WristRight else
    if i == 12 then HandRight else if i == 13 then HandTipRight else if i == 14 then HipLeft else if i == 15 then KneeLeft else
    if i == 16 then AnkleLeft else if i == 17 then FootLeft else if i == 18 then HipRight else if i == 19 then KneeRight else
    if i == 20 then AnkleRight else if i == 21 then FootRight else if i == 22 then Neck else if i == 23 then ThumbLeft else
    if i == 24 then ThumbRight else if i == 25 then Unmapped1 else if i == 26 then Unmapped2 else Unmapped3
  }

  /** The two casts are inverse: every value below 28 names a distinct joint type. */
  lemma OrdinalOfJointAt(i: nat)
    requires i < TotalJoints
    ensures Ordinal(JointAt(i)) == i
  {
  }

  /** The joint every slot of a new container holds, apart from its type. */
  function DefaultJoint(t: JointType): Joint {
    Joint(t, Origin, Identity, NotTracked, Unknown)
  }

  datatype Exception =
    | IndexOutOfRangeException
    | ArgumentException(message: string)

  const TypeMismatchByType := "The joint data must be of the type that is being set."
  const TypeMismatchByIndex := "The joint type doesn't match."

  /**
   * The 28 joints of one skeleton, kept in an array whose slot `i` always holds
   * a joint of type `i`; both setters refuse a joint of any other type.
   */
  class SkeletonData {
    const jointBacker: array<Joint>

    ghost predicate Valid()
      reads jointBacker
    {
      && jointBacker.Length == TotalJoints
      && forall i :: 0 <= i < TotalJoints ==> jointBacker[i].jointType == JointAt(i)
    }

    /** Every slot holds the default joint of its type. */
    ghost predicate IsDefault()
      reads jointBacker
    {
      && jointBacker.Length == TotalJoints
      && forall i :: 0 <= i < TotalJoints ==> jointBacker[i] == DefaultJoint(JointAt(i))
    }

    constructor ()
      ensures Valid() && IsDefault() && fresh(jointBacker)
    {
      var backer := new Joint[TotalJoints];
      var i := 0;
      while i < TotalJoints
        invariant 0 <= i <= TotalJoints
        invariant forall k :: 0 <= k < i ==> backer[k] == DefaultJoint(JointAt(k))
      {
        backer[i] := Joint(JointAt(i), Origin, Identity, NotTracked, Unknown);
        i := i + 1;
      }
      jointBacker := backer;
    }

    function Count(): (n: nat)
      reads jointBacker
      requires Valid()
      ensures n == TotalJoints
    {
      jointBacker.Length
    }

    /** The getter indexed by joint type: always the slot of that type. */
    function GetByType(t: JointType): (j: Joint)
      reads jointBacker
      requires Valid()
      ensures j.jointType == t
      ensures j == jointBacker[Ordinal(t)]
    {
      jointBacker[Ordinal(t)]
    }

    /** The getter indexed by integer: slot `i`, or an error outside `[0, 28)`. */
    function GetByIndex(i: int): (r: Result<Joint, Exception>)
      reads jointBacker
      requires Valid()
      ensures r.Success? <==> 0 <= i < TotalJoints
      ensures r.Success? ==> r.value == jointBacker[i] && r.value.jointType == JointAt(i)
      ensures r.Failure? ==> r.error == IndexOutOfRangeException
    {
      if 0 <= i < TotalJoints then Success(jointBacker[i]) else Failure(IndexOutOfRangeException)
    }

    /** The setter indexed by joint type. */
    method SetByType(t: JointType, value: Joint) returns (outcome: Outcome<Exception>)
      requires Valid()
      modifies jointBacker
      ensures Valid()
      ensures outcome == if value.jointType == t then Pass else Fail(ArgumentException(TypeMismatchByType))
      ensures outcome.Pass? ==> jointBacker[..] == old(jointBacker[..])[Ordinal(t) := value]
      ensures outcome.Fail? ==> jointBacker[..] == old(jointBacker[..])
    {
      if value.jointType == t {
        jointBacker[Ordinal(t)] := value;
        outcome := Pass;
      } else {
        outcome := Fail(ArgumentException(TypeMismatchByType));
      }
    }

    /** The setter indexed by integer: the range is checked before the type. */
    method SetByIndex(i: int, value: Joint) returns (outcome: Outcome<Exception>)
      requires Valid()
      modifies jointBacker
      ensures Valid()
      ensures outcome == (if !(0 <= i < TotalJoints) then Fail(IndexOutOfRangeException)
                          else if value.jointType != JointAt(i) then Fail(ArgumentException(TypeMismatchByIndex))
                          else Pass)
      ensures outcome.Pass? ==> jointBacker[..] == old(jointBacker[..])[i := value]
      ensures outcome.Fail? ==> jointBacker[..] == old(jointBacker[..])
    {
      if 0 <= i < TotalJoints {
        if value.jointType == JointAt(i) {
          jointBacker[i] := value;
          outcome := Pass;
        } else {
          outcome := Fail(ArgumentException(TypeMismatchByIndex));
        }
      } else {
        outcome := Fail(IndexOutOfRangeException);
      }
    }
  }

  /**
   * One tracked body. The source declares it as a class with public fields, but
   * the core only reads those fields and moves references around, so it is a
   * value here; the joint container it owns stays a reference.
   */
  datatype KinectSkeleton = KinectSkeleton(
    skeleton: SkeletonData,
    position: Point3,
    skeletonTrackingState: TrackingState,
    rightHandClosed: bool,
    leftHandClosed: bool,
    sourceKinectID: int,
    trackingId: int)

  /** What `new KinectSkeleton()` yields around the container `joints`. */
  predicate IsDefaultSkeleton(s: KinectSkeleton, joints: SkeletonData) {
    s == KinectSkeleton(joints, Origin, NotTracked, false, false, 0, 0)
  }

  /** The latest skeletons of one sensor, as the merge buffer holds them. */
  class KinectSkeletonsData {
    const uniqueID: string
    var processed: bool
    var kinectID: int
    var actualSkeletons: seq<KinectSkeleton>

    constructor (uniqueID: string, skeletonCount: nat)
      ensures this.uniqueID == uniqueID && !processed && kinectID == 0
      ensures |actualSkeletons| == skeletonCount
      ensures forall i :: 0 <= i < skeletonCount ==>
        var joints := actualSkeletons[i].skeleton;
        && IsDefaultSkeleton(actualSkeletons[i], joints)
        && fresh(joints) && fresh(joints.jointBacker) && joints.Valid() && joints.IsDefault()
      ensures forall i, j :: 0 <= i < j < skeletonCount ==>
        actualSkeletons[i].skeleton != actualSkeletons[j].skeleton
    {
      this.uniqueID := uniqueID;
      processed := false;
      kinectID := 0;
      var skeletons: seq<KinectSkeleton> := [];
      for i := 0 to skeletonCount
        invariant |skeletons| == i
        invariant forall k :: 0 <= k < i ==>
          var joints := skeletons[k].skeleton;
          && IsDefaultSkeleton(skeletons[k], joints)
          && fresh(joints) && fresh(joints.jointBacker) && joints.Valid() && joints.IsDefault()
        invariant forall k, l :: 0 <= k < l < i ==> skeletons[k].skeleton != skeletons[l].skeleton
      {
        var joints := new SkeletonData();
        skeletons := skeletons + [KinectSkeleton(joints, Origin, NotTracked, false, false, 0, 0)];
      }
      actualSkeletons := skeletons;
    }
  }

  /**
   * The comparer that orders snapshots by sensor index: the sign of the
   * integer comparison of the two `kinectID`s.
   */
  function CompareByKinectID(x: KinectSkeletonsData, y: KinectSkeletonsData): (r: int)
    reads x, y
    ensures r == -1 || r == 0 || r == 1
    ensures r < 0 <==> x.kinectID < y.kinectID
    ensures r == 0 <==> x.kinectID == y.kinectID
    ensures r > 0 <==> x.kinectID > y.kinectID
  {
    if x.kinectID < y.kinectID then -1 else if x.kinectID > y.kinectID then 1 else 0
  }

  /** The comparer is antisymmetric and transitive, as a sort requires. */
  lemma CompareIsTotalPreorder(x: KinectSkeletonsData, y: KinectSkeletonsData, z: KinectSkeletonsData)
    ensures CompareByKinectID(x, y) == -CompareByKinectID(y, x)
    ensures CompareByKinectID(x, y) <= 0 && CompareByKinectID(y, z) <= 0 ==> CompareByKinectID(x, z) <= 0
  {
  }
}
