/** JSON documents as Python reads them: an object is a dictionary in insertion order. */
module Json {
  import opened Wrappers

  datatype Json =
    | Null
    | Bool(b: bool)
    | Int(n: int)
    | Float(r: real)
    | Str(s: string)
    | Arr(items: seq<Json>)
    | Obj(fields: seq<(string, Json)>)

  /** `d.get(key)` of a dictionary whose keys differ. */
  function Get(fields: seq<(string, Json)>, key: string): Option<Json> {
    if fields == [] then None
    else if fields[0].0 == key then Some(fields[0].1)
    else Get(fields[1..], key)
  }

  /** What is found is the value of the first field of that name, and nothing is found exactly when there is none. */
  lemma {:induction false} GetIs(fields: seq<(string, Json)>, key: string)
    ensures Get(fields, key).None? <==> forall i :: 0 <= i < |fields| ==> fields[i].0 != key
    ensures Get(fields, key).Some? ==>
              exists i :: 0 <= i < |fields| && fields[i] == (key, Get(fields, key).value)
                          && forall j :: 0 <= j < i ==> fields[j].0 != key
  {
    if fields != [] && fields[0].0 != key {
      GetIs(fields[1..], key);
      if Get(fields, key).Some? {
        var k :| 0 <= k < |fields[1..]| && fields[1..][k] == (key, Get(fields, key).value)
                 && forall j :: 0 <= j < k ==> fields[1..][j].0 != key;
        assert fields[k + 1] == (key, Get(fields, key).value);
        assert forall j :: 0 < j < k + 1 ==> fields[j] == fields[1..][j - 1];
      }
      assert forall i :: 0 < i < |fields| ==> fields[i] == fields[1..][i - 1];
    }
  }

  lemma {:induction false} GetAt(fields: seq<(string, Json)>, key: string, i: nat)
    requires i < |fields| && fields[i].0 == key && forall j :: 0 <= j < i ==> fields[j].0 != key
    ensures Get(fields, key) == Some(fields[i].1)
  {
    if i > 0 {
      GetAt(fields[1..], key, i - 1);
    }
  }

  /** The characters `str.strip` removes. */
  predicate IsSpace(c: char) {
    var n := c as int;
    || 0x09 <= n <= 0x0D || 0x1C <= n <= 0x20 || n == 0x85 || n == 0xA0 || n == 0x1680
    || 0x2000 <= n <= 0x200A || n == 0x2028 || n == 0x2029 || n == 0x202F || n == 0x205F || n == 0x3000
  }

  predicate Blank(s: string) {
    forall i :: 0 <= i < |s| ==> IsSpace(s[i])
  }

  /** A string with a visible character is not blank, and only white space is. */
  lemma BlankIff(s: string)
    ensures Blank(s) <==> forall c :: c in s ==>
              c as int in {9, 10, 11, 12, 13, 28, 29, 30, 31, 32, 133, 160, 5760, 8192, 8193, 8194, 8195, 8196, 8197,
                           8198, 8199, 8200, 8201, 8202, 8232, 8233, 8239, 8287, 12288}
  {
    if !Blank(s) {
      var i :| 0 <= i < |s| && !IsSpace(s[i]);
      assert s[i] in s;
    }
  }

  /** A present string with something besides white space in it. */
  predicate NonBlank(value: Option<Json>) {
    value.Some? && value.value.Str? && !Blank(value.value.s)
  }

  /** `isinstance(value, int)`: in Python a boolean is an integer, 0 or 1. */
  function AsInt(value: Option<Json>): Option<int> {
    match value
    case Some(Int(n)) => Some(n)
    case Some(Bool(b)) => Some(if b then 1 else 0)
    case _ => None
  }

  lemma AsIntIs(n: int)
    ensures AsInt(Some(Int(n))) == Some(n) && AsInt(Some(Bool(true))) == Some(1) && AsInt(Some(Bool(false))) == Some(0)
    ensures forall v :: AsInt(v).Some? <==> v.Some? && (v.value.Int? || v.value.Bool?)
  {
  }

  predicate NonNegativeInt(value: Option<Json>) {
    AsInt(value).Some? && AsInt(value).value >= 0
  }
}
