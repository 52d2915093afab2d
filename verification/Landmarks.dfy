/** How the rest of the system names track nodes: kernel/track/TrackHelper.c. */
module Landmarks {
  import opened TrackGraph

  datatype LandmarkType = SensorMark | SwitchMark | EndMark | FakeMark | BadMark

  datatype Landmark = Landmark(ty: LandmarkType, num1: int, num2: int)

  const MR: int := 0
  const BR: int := 1
  const EN: int := 0
  const EX: int := 1

  /** get_node_type */
  function NodeTypeOf(l: Landmark): NodeType
  {
    match l.ty
    case SensorMark => Sensor
    case SwitchMark => if l.num1 == MR then Merge else Branch
    case EndMark => if l.num1 == EN then Enter else Exit
    case _ => NoNode
  }

  /** get_node_num */
  function NodeNumOf(l: Landmark): int
  {
    match l.ty
    case SensorMark => l.num1 * 16 + l.num2 - 1
    case SwitchMark => l.num2
    case EndMark => l.num2
    case _ => -1
  }

  /** getLandmark, on nodes that exist (sensor numbers are not negative) */
  function LandmarkOf(v: Node): Landmark
  {
    match v.ty
    case Sensor => Landmark(SensorMark, v.num / 16, v.num % 16 + 1)
    case Branch => Landmark(SwitchMark, BR, v.num)
    case Merge => Landmark(SwitchMark, MR, v.num)
    case Enter => Landmark(EndMark, EN, v.num)
    case Exit => Landmark(EndMark, EX, v.num)
    case Fake => Landmark(FakeMark, 0, 0)
    case NoNode => Landmark(SensorMark, 0, 0)
  }
}
