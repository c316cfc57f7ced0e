/**
 * The browser's multipart form data as the client builds it and the
 * Next.js route reads it: an ordered list of named fields, each holding a
 * text value or a file.
 */
module Multipart {

  import opened Wrappers

  /** A browser `File`: its name, MIME type and size in bytes (the bytes are not modelled). */
  datatype File = File(name: string, mimeType: string, size: nat)

  datatype Value = Text(text: string) | Blob(file: File)

  datatype Field = Field(name: string, value: Value)

  /** JavaScript truthiness of what `formData.get(...)` returns: neither null nor the empty string (a file is always truthy). */
  predicate Present(v: Option<Value>) {
    match v
    case None => false
    case Some(Text(s)) => s != ""
    case Some(Blob(_)) => true
  }

  /** The position of the first field with that name, or the length when there is none. */
  function FirstIndex(fields: seq<Field>, name: string): (i: nat)
    ensures i <= |fields|
    ensures forall j :: 0 <= j < i ==> fields[j].name != name
    ensures i < |fields| ==> fields[i].name == name
  {
    if fields == [] || fields[0].name == name then 0 else 1 + FirstIndex(fields[1..], name)
  }

  /** `FormData.get`: the value of the first field with that name, or null. */
  function Get(fields: seq<Field>, name: string): (r: Option<Value>)
    ensures r.None? <==> forall i :: 0 <= i < |fields| ==> fields[i].name != name
  {
    var i := FirstIndex(fields, name);
    if i < |fields| then Some(fields[i].value) else None
  }

  /** `get` returns the value of a field when no earlier field has its name. */
  lemma GetAt(fields: seq<Field>, name: string, i: nat)
    requires i < |fields| && fields[i].name == name
    requires forall j :: 0 <= j < i ==> fields[j].name != name
    ensures Get(fields, name) == Some(fields[i].value)
  {
  }

  /** `FormData.getAll`: the values of every field with that name, in order. */
  function GetAll(fields: seq<Field>, name: string): (r: seq<Value>)
    ensures |r| <= |fields|
  {
    if fields == [] then []
    else (if fields[0].name == name then [fields[0].value] else []) + GetAll(fields[1..], name)
  }

  /** `getAll` finds nothing when no field has the name. */
  lemma {:induction false} GetAllAbsent(fields: seq<Field>, name: string)
    requires forall i :: 0 <= i < |fields| ==> fields[i].name != name
    ensures GetAll(fields, name) == []
  {
    if fields != [] {
      GetAllAbsent(fields[1..], name);
    }
  }

  /** Appending fields appends what `getAll` finds. */
  lemma {:induction false} GetAllAppend(a: seq<Field>, b: seq<Field>, name: string)
    ensures GetAll(a + b, name) == GetAll(a, name) + GetAll(b, name)
  {
    if a == [] {
      assert a + b == b;
    } else {
      assert (a + b)[0] == a[0] && (a + b)[1..] == a[1..] + b;
      GetAllAppend(a[1..], b, name);
      var h := if a[0].name == name then [a[0].value] else [];
      assert GetAll(a + b, name) == h + GetAll((a + b)[1..], name);
      assert h + (GetAll(a[1..], name) + GetAll(b, name)) == (h + GetAll(a[1..], name)) + GetAll(b, name);
    }
  }

  /** `get` on a longer list finds what it found on the prefix. */
  lemma {:induction false} GetPrefix(a: seq<Field>, b: seq<Field>, name: string)
    requires Get(a, name).Some?
    ensures Get(a + b, name) == Get(a, name)
  {
    var i := FirstIndex(a, name);
    assert FirstIndex(a + b, name) == i by {
      var k := FirstIndex(a + b, name);
      assert (a + b)[i].name == name;
    }
  }
}
