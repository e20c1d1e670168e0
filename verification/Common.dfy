/** What the parts of the model share. */
module Common {

  type NodeId = nat

  const NULL_NODE: NodeId := 0

  datatype Option<+T> = None | Some(value: T)
}
