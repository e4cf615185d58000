/** The configuration document as the descriptor sees it through the tree
    library: a mapping from keys to nodes, each node a scalar, a sequence or a
    mapping.  Parsing is not modelled; the library's `as<T>()` conversions are a
    parameter (`Converter`) whose `None` means that the conversion throws. */
module YamlNode {
  import opened Wrappers
  import opened MachineInts

  /** A 32-bit float, kept as its bit pattern: the descriptor never computes with it. */
  datatype Float = Float(bits: bv32)

  datatype Node =
    | Scalar(text: string)
    | Sequence(items: seq<Node>)
    | Mapping(entries: map<string, Node>)

  /** One model's configuration block; `key in doc` is `node[key]` being defined. */
  type Document = map<string, Node>

  /** The library's partial conversions `as<std::string>()`, `as<int>()`,
      `as<bool>()` and `as<float>()`. */
  datatype Converter = Converter(
    asString: Node -> Option<string>,
    asInt: Node -> Option<int32>,
    asBool: Node -> Option<bool>,
    asFloat: Node -> Option<Float>)

  /** `n.size()`: the number of children; a scalar has none. */
  function Size(n: Node): nat {
    match n
    case Scalar(_) => 0
    case Sequence(items) => |items|
    case Mapping(entries) => |entries|
  }

  function Digit(d: nat): char
    requires d < 10
  {
    "0123456789"[d]
  }

  function DecimalText(i: nat): string {
    if i < 10 then [Digit(i)] else DecimalText(i / 10) + [Digit(i % 10)]
  }

  /** `n[i]`: the i-th item of a sequence, or the entry of a mapping whose key
      is the decimal text of i; `None` is an undefined node. */
  function At(n: Node, i: nat): Option<Node> {
    match n
    case Scalar(_) => None
    case Sequence(items) => if i < |items| then Some(items[i]) else None
    case Mapping(entries) =>
      var k := DecimalText(i);
      if k in entries then Some(entries[k]) else None
  }

  /** `n[i].as<T>()`: converting an undefined node throws. */
  function ConvertAt<T>(n: Node, i: nat, conv: Node -> Option<T>): Option<T> {
    match At(n, i)
    case None => None
    case Some(child) => conv(child)
  }

  /** The vector that pushing `n[0].as<T>()`, ..., `n[k-1].as<T>()` builds, or
      `None` when one of those conversions throws. */
  function ConvertPrefix<T>(n: Node, k: nat, conv: Node -> Option<T>): Option<seq<T>> {
    if k == 0 then Some([])
    else
      match ConvertPrefix(n, k - 1, conv)
      case None => None
      case Some(front) =>
        match ConvertAt(n, k - 1, conv)
        case None => None
        case Some(v) => Some(front + [v])
  }

  /** The vector built from all children of `n`, in document order. */
  function ConvertChildren<T>(n: Node, conv: Node -> Option<T>): Option<seq<T>> {
    ConvertPrefix(n, Size(n), conv)
  }

  /** Converting the first k children succeeds exactly when each of them
      converts; the result then has length k and holds child i's value at i. */
  lemma {:induction false} ConvertPrefixMeaning<T>(n: Node, k: nat, conv: Node -> Option<T>)
    ensures ConvertPrefix(n, k, conv).Some? <==>
      forall i :: 0 <= i < k ==> ConvertAt(n, i, conv).Some?
    ensures ConvertPrefix(n, k, conv).Some? ==>
      |ConvertPrefix(n, k, conv).value| == k &&
      forall i :: 0 <= i < k ==> ConvertPrefix(n, k, conv).value[i] == ConvertAt(n, i, conv).value
  {
    if k > 0 {
      ConvertPrefixMeaning(n, k - 1, conv);
    }
  }

  /** The element-wise loop of the sequence keys: push `n[i].as<T>()` for i
      from 0 to `n.size() - 1`; `ok` is false when a conversion throws. */
  method ConvertEach<T>(n: Node, conv: Node -> Option<T>) returns (ok: bool, values: seq<T>)
    ensures ConvertChildren(n, conv) == if ok then Some(values) else None
    ensures ok <==> forall i :: 0 <= i < Size(n) ==> ConvertAt(n, i, conv).Some?
    ensures ok ==> |values| == Size(n)
    ensures ok ==> forall i :: 0 <= i < Size(n) ==> values[i] == ConvertAt(n, i, conv).value
  {
    values := [];
    for i := 0 to Size(n)
      invariant ConvertPrefix(n, i, conv) == Some(values)
    {
      var v := ConvertAt(n, i, conv);
      if v.None? {
        ConvertPrefixMeaning(n, Size(n), conv);
        return false, [];
      }
      values := values + [v.value];
    }
    ok := true;
    ConvertPrefixMeaning(n, Size(n), conv);
  }
}
