/** Decoded JSON values and Python's subscript chains over them
    (`data["entry"][0]["changes"][0]["value"]`). */
module Json {
  import opened Wrappers

  /** A value as `json.loads` returns it. Numbers are kept as integers. */
  datatype Json =
    | JNull
    | JBool(b: bool)
    | JNum(n: int)
    | JStr(s: string)
    | JArr(items: seq<Json>)
    | JObj(fields: map<string, Json>)

  /** One subscript: `[key]` or `[index]`. */
  datatype Step = Key(name: string) | Index(pos: nat)

  /** `j[step]` as Python evaluates it on a decoded JSON value; None where Python
      raises KeyError, IndexError or TypeError. A string indexed by position
      yields its one-character substring; a dict indexed by a position has no
      such key, since decoded JSON keys are strings. */
  function Child(j: Json, step: Step): (r: Option<Json>)
    ensures step.Key? ==> (r.Some? <==> j.JObj? && step.name in j.fields)
    ensures step.Index? ==> (r.Some? <==> (j.JArr? && step.pos < |j.items|) || (j.JStr? && step.pos < |j.s|))
  {
    match step
    case Key(k) => if j.JObj? && k in j.fields then Some(j.fields[k]) else None
    case Index(i) =>
      if j.JArr? && i < |j.items| then Some(j.items[i])
      else if j.JStr? && i < |j.s| then Some(JStr([j.s[i]]))
      else None
  }

  /** The subscript chain `j[p0][p1]...`; None as soon as one subscript raises. */
  function At(j: Json, path: seq<Step>): (r: Option<Json>)
    decreases |path|
  {
    if path == [] then Some(j)
    else
      match Child(j, path[0])
      case None => None
      case Some(c) => At(c, path[1..])
  }

  /** Reading a path in two goes (`v = data[p]; v[q]`) is reading `data[p + q]`. */
  lemma {:induction false} AtConcat(j: Json, p: seq<Step>, q: seq<Step>)
    ensures At(j, p + q) == (match At(j, p) case None => None case Some(v) => At(v, q))
    decreases |p|
  {
    if p == [] {
      assert p + q == q;
    } else {
      assert (p + q)[0] == p[0];
      assert (p + q)[1..] == p[1..] + q;
      match Child(j, p[0])
      case None =>
      case Some(c) => AtConcat(c, p[1..], q);
    }
  }

  /** The string found at a path; None if the path raises or the value there is not a string. */
  function StrAt(j: Json, path: seq<Step>): (r: Option<string>)
    ensures r.Some? <==> At(j, path).Some? && At(j, path).value.JStr?
    ensures r.Some? ==> At(j, path) == Some(JStr(r.value))
  {
    match At(j, path)
    case Some(JStr(s)) => Some(s)
    case _ => None
  }
}
