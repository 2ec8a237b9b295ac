/** JSON documents, paths into them, and the substring test used by the patch guards. */
module JsonValues {
  import opened Wrappers

  /** A JSON value. Object members are a map: member order carries no meaning here. */
  datatype Json =
    | Null
    | Bool(flag: bool)
    | Num(number: real)
    | Str(text: string)
    | Arr(items: seq<Json>)
    | Obj(members: map<string, Json>)

  /** One step down a document: into an object member or into an array slot. */
  datatype Step = Member(name: string) | Slot(index: nat)

  type Path = seq<Step>

  /** The value at `path`, if the document has one there. */
  function Lookup(v: Json, path: Path): Option<Json>
    decreases |path|
  {
    if path == [] then Some(v)
    else match (v, path[0])
      case (Obj(members), Member(name)) =>
        if name in members then Lookup(members[name], path[1..]) else None
      case (Arr(items), Slot(index)) =>
        if index < |items| then Lookup(items[index], path[1..]) else None
      case _ => None
  }

  /** The member `name` of the object at `path`, if there is one. */
  function MemberAt(v: Json, path: Path, name: string): Option<Json> {
    match Lookup(v, path)
    case Some(Obj(members)) => if name in members then Some(members[name]) else None
    case _ => None
  }

  /** A member access is a lookup one step further down. */
  lemma {:induction false} MemberAtIsLookup(v: Json, path: Path, name: string)
    ensures MemberAt(v, path, name) == Lookup(v, path + [Member(name)])
    decreases |path|
  {
    if path == [] {
      assert (path + [Member(name)])[1..] == [];
    } else {
      var rest := path[1..];
      assert (path + [Member(name)])[1..] == rest + [Member(name)];
      match (v, path[0])
      case (Obj(members), Member(first)) =>
        if first in members { MemberAtIsLookup(members[first], rest, name); }
      case (Arr(items), Slot(index)) =>
        if index < |items| { MemberAtIsLookup(items[index], rest, name); }
      case _ =>
    }
  }

  /** `text` contains `needle` at some offset. */
  predicate Contains(text: string, needle: string) {
    exists offset | 0 <= offset <= |text| :: needle <= text[offset..]
  }
}
