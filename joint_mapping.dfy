/**
 * The joint-to-wire table of the server: each joint type the table names is
 * sent as a numbered sensor of a tracker endpoint, in the FAAST numbering,
 * where 4 and 10 (the collars of another skeleton format) are left unused.
 */
module JointMapping {
  import opened Wrappers
  import opened KinectBase

  /** The sensor number of a joint type, or -1 for a type the table omits. */
  function GetSkeletonSensorNumber(joint: JointType): (sensorNumber: int)
    ensures -1 <= sensorNumber <= 26 && sensorNumber != 4 && sensorNumber != 10
  {
    match joint
    case Head => 0
    case ShoulderCenter => 1
    case Spine => 2
    case HipCenter => 3
    case ShoulderLeft => 5
    case ElbowLeft => 6
    case WristLeft => 7
    case HandLeft => 8
    case HandTipLeft => 9
    case ShoulderRight => 11
    case ElbowRight => 12
    case WristRight => 13
    case HandRight => 14
    case HandTipRight => 15
    case HipLeft => 16
    case KneeLeft => 17
    case AnkleLeft => 18
    case FootLeft => 19
    case HipRight => 20
    case KneeRight => 21
    case AnkleRight => 22
    case FootRight => 23
    case Neck => 24
    case ThumbLeft => 25
    case ThumbRight => 26
    case _ => -1
  }

  /** The joint types the table lists. */
  predicate IsMapped(joint: JointType) {
    !(joint.Unmapped1? || joint.Unmapped2? || joint.Unmapped3?)
  }

  /** The sensor numbers a tracker endpoint of a skeleton can receive. */
  predicate IsWireNumber(n: int) {
    0 <= n <= 26 && n != 4 && n != 10
  }

  /** The inverse table: which joint a received sensor number stands for. */
  function JointOfSensorNumber(n: int): (j: Option<JointType>)
  {
    if n == 0 then Some(Head)
    else if n == 1 then Some(ShoulderCenter)
    else if n == 2 then Some(Spine)
    else if n == 3 then Some(HipCenter)
    else if n == 5 then Some(ShoulderLeft)
    else if n == 6 then Some(ElbowLeft)
    else if n == 7 then Some(WristLeft)
    else if n == 8 then Some(HandLeft)
    else if n == 9 then Some(HandTipLeft)
    else if n == 11 then Some(ShoulderRight)
    else if n == 12 then Some(ElbowRight)
    else if n == 13 then Some(WristRight)
    else if n == 14 then Some(HandRight)
    else if n == 15 then Some(HandTipRight)
    else if n == 16 then Some(HipLeft)
    else if n == 17 then Some(KneeLeft)
    else if n == 18 then Some(AnkleLeft)
    else if n == 19 then Some(FootLeft)
    else if n == 20 then Some(HipRight)
    else if n == 21 then Some(KneeRight)
    else if n == 22 then Some(AnkleRight)
    else if n == 23 then Some(FootRight)
    else if n == 24 then Some(Neck)
    else if n == 25 then Some(ThumbLeft)
    else if n == 26 then Some(ThumbRight)
    else None
  }

  /**
   * The table sends every listed joint to a wire number and every other joint
   * to -1, and decoding the number gives the joint back.
   */
  lemma SensorNumberRoundTrip(joint: JointType)
    ensures IsMapped(joint) <==> GetSkeletonSensorNumber(joint) != -1
    ensures IsMapped(joint) ==> IsWireNumber(GetSkeletonSensorNumber(joint))
    ensures IsMapped(joint) ==> JointOfSensorNumber(GetSkeletonSensorNumber(joint)) == Some(joint)
  {
  }

  /** Every wire number is the number of exactly one listed joint. */
  lemma WireNumberRoundTrip(n: int)
    ensures IsWireNumber(n) <==> JointOfSensorNumber(n).Some?
    ensures JointOfSensorNumber(n).Some? ==>
      IsMapped(JointOfSensorNumber(n).value) && GetSkeletonSensorNumber(JointOfSensorNumber(n).value) == n
  {
  }

  /** No two listed joints share a sensor number. */
  lemma SensorNumberInjective(a: JointType, b: JointType)
    requires IsMapped(a) && IsMapped(b) && a != b
    ensures GetSkeletonSensorNumber(a) != GetSkeletonSensorNumber(b)
  {
    SensorNumberRoundTrip(a);
    SensorNumberRoundTrip(b);
  }
}
