/** The two views of a type that the compiler's check is modelled on agree: a graph node that
    depicts a type means what the check on types answers. */
module Depiction {
  import Types
  import Rpc
  import opened Marking

  /** Node n of the type graph stands for type t: a tree of nodes, one for every part of t. */
  predicate Depicts(n: DataType, t: Types.Type)
    decreases t
  {
    match t
    case Struct(ts) =>
      n.shape.Struct? && |n.shape.attributes| == |ts|
      && forall i :: 0 <= i < |ts| ==> Depicts(n.shape.attributes[i], ts[i])
    case Alias(u) => n.shape.Typedef? && Depicts(n.shape.actual, u)
    case Array(_, u) => n.shape.Array? && Depicts(n.shape.base, u)
    case Ptr(level, u) => n.shape.Pointer? && n.shape.level == level && Depicts(n.shape.base, u)
    case Container(_, u) =>
      n.shape.Template? && n.shape.known
      && if u.Pair? then
           |n.shape.elements| == 2 && Depicts(n.shape.elements[0], u.key) && Depicts(n.shape.elements[1], u.value)
         else |n.shape.elements| == 1 && Depicts(n.shape.elements[0], u)
    case Pair(_, _) => false
    case _ => n.shape == Leaf(1)
  }

  lemma {:induction false} MeaningIsCanMarshal(n: DataType, t: Types.Type)
    requires Depicts(n, t)
    ensures Meaning(n) == Rpc.CanMarshal(t)
    decreases t
  {
    MeaningFixed(n);
    match t
    case Struct(ts) =>
      var parts := n.shape.attributes;
      forall i | 0 <= i < |ts| ensures Meaning(parts[i]) == Rpc.CanMarshal(ts[i]) {
        MeaningIsCanMarshal(parts[i], ts[i]);
      }
      assert forall i :: 0 <= i < |ts| ==> parts[i] in parts;
    case Alias(u) => MeaningIsCanMarshal(n.shape.actual, u);
    case Array(_, u) => MeaningIsCanMarshal(n.shape.base, u);
    case Ptr(_, u) => MeaningIsCanMarshal(n.shape.base, u);
    case Container(_, u) =>
      var parts := n.shape.elements;
      if u.Pair? {
        MeaningIsCanMarshal(parts[0], u.key);
        MeaningIsCanMarshal(parts[1], u.value);
        assert parts == [parts[0], parts[1]];
      } else {
        MeaningIsCanMarshal(parts[0], u);
        assert parts == [parts[0]];
      }
    case _ =>
  }
}
