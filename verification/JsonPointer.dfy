/** JSON values, and the local JSON pointers a schema's `$ref` holds (RFC 6901, sections 3 and 4). */
module JsonPointer {
  import opened Options

  /** A parsed value. The fields of an object are in enumeration order. */
  datatype Json =
    | Null
    | Bool(value: bool)
    | Number(number: int)
    | Str(text: string)
    | Arr(elements: seq<Json>)
    | Obj(fields: seq<Field>)

  datatype Field = Field(key: string, value: Json)

  function Get(fields: seq<Field>, key: string): (r: Option<Json>)
    ensures r.Some? ==> exists i :: 0 <= i < |fields| && fields[i].value == r.value && fields[i].key == key
  {
    if fields == [] then None
    else if fields[0].key == key then Some(fields[0].value)
    else Get(fields[1..], key)
  }

  function Size(j: Json): (n: nat)
    ensures n > 0
  {
    match j
    case Arr(elements) => 1 + Sizes(elements)
    case Obj(fields) => 1 + FieldSizes(fields)
    case _ => 1
  }

  function Sizes(elements: seq<Json>): nat {
    if elements == [] then 0 else Size(elements[0]) + Sizes(elements[1..])
  }

  function FieldSizes(fields: seq<Field>): nat {
    if fields == [] then 0 else Size(fields[0].value) + FieldSizes(fields[1..])
  }

  lemma {:induction false} ElementIsSmaller(elements: seq<Json>, i: nat)
    requires i < |elements|
    ensures Size(elements[i]) <= Sizes(elements)
  {
    if i > 0 { ElementIsSmaller(elements[1..], i - 1); }
  }

  lemma {:induction false} FieldIsSmaller(fields: seq<Field>, i: nat)
    requires i < |fields|
    ensures Size(fields[i].value) <= FieldSizes(fields)
  {
    if i > 0 { FieldIsSmaller(fields[1..], i - 1); }
  }

  // ----- Pointers

  /** The text between separators; there is always at least one piece. */
  function Split(s: string, separator: char): (r: seq<string>)
    ensures r != []
  {
    if s == "" then [""]
    else
      var rest := Split(s[1..], separator);
      if s[0] == separator then [""] + rest else [[s[0]] + rest[0]] + rest[1..]
  }

  function Join(pieces: seq<string>, separator: char): string {
    if pieces == [] then ""
    else if |pieces| == 1 then pieces[0]
    else pieces[0] + [separator] + Join(pieces[1..], separator)
  }

  /** Replaces every `~c` by `r`. */
  function Unescape(s: string, c: char, r: char): string {
    if s == "" then ""
    else if |s| >= 2 && s[0] == '~' && s[1] == c then [r] + Unescape(s[2..], c, r)
    else [s[0]] + Unescape(s[1..], c, r)
  }

  function DecodeToken(token: string): string {
    Unescape(Unescape(token, '1', '/'), '0', '~')
  }

  /** The reference token of a key. */
  function EncodeToken(key: string): string {
    if key == "" then ""
    else if key[0] == '~' then "~0" + EncodeToken(key[1..])
    else if key[0] == '/' then "~1" + EncodeToken(key[1..])
    else [key[0]] + EncodeToken(key[1..])
  }

  /** The key with its tildes, but not its slashes, escaped. */
  function EncodeTildes(key: string): string {
    if key == "" then ""
    else if key[0] == '~' then "~0" + EncodeTildes(key[1..])
    else [key[0]] + EncodeTildes(key[1..])
  }

  lemma {:induction false} UnescapeSlashes(key: string)
    ensures Unescape(EncodeToken(key), '1', '/') == EncodeTildes(key)
  {
    if key != "" {
      UnescapeSlashes(key[1..]);
      var rest := EncodeToken(key[1..]);
      if key[0] == '~' {
        assert ("~0" + rest)[1..] == "0" + rest && ("0" + rest)[1..] == rest;
      } else if key[0] == '/' {
        assert ("~1" + rest)[2..] == rest;
      } else {
        assert ([key[0]] + rest)[1..] == rest;
      }
    }
  }

  lemma {:induction false} UnescapeTildes(key: string)
    ensures Unescape(EncodeTildes(key), '0', '~') == key
  {
    if key != "" {
      UnescapeTildes(key[1..]);
      var rest := EncodeTildes(key[1..]);
      if key[0] == '~' {
        assert ("~0" + rest)[2..] == rest;
      } else {
        assert ([key[0]] + rest)[1..] == rest;
      }
    }
  }

  /** Decoding undoes encoding for every key, because slashes are restored before tildes. */
  lemma DecodeEncode(key: string)
    ensures DecodeToken(EncodeToken(key)) == key
  {
    UnescapeSlashes(key);
    UnescapeTildes(key);
  }

  lemma {:induction false} EncodedHasNoSlash(key: string)
    ensures '/' !in EncodeToken(key)
  {
    if key != "" { EncodedHasNoSlash(key[1..]); }
  }

  lemma {:induction false} SplitPrefix(piece: string, rest: string, separator: char)
    requires separator !in piece
    ensures Split(piece + [separator] + rest, separator) == [piece] + Split(rest, separator)
  {
    var s := piece + [separator] + rest;
    if piece == "" {
      assert s[1..] == rest;
    } else {
      assert s[1..] == piece[1..] + [separator] + rest;
      SplitPrefix(piece[1..], rest, separator);
      assert [s[0]] + piece[1..] == piece;
      assert ([piece[1..]] + Split(rest, separator))[1..] == Split(rest, separator);
    }
  }

  lemma {:induction false} SplitWhole(piece: string, separator: char)
    requires separator !in piece
    ensures Split(piece, separator) == [piece]
  {
    if piece != "" {
      SplitWhole(piece[1..], separator);
      assert [piece[0]] + piece[1..] == piece;
    }
  }

  lemma {:induction false} SplitJoin(pieces: seq<string>, separator: char)
    requires pieces != [] && forall p :: p in pieces ==> separator !in p
    ensures Split(Join(pieces, separator), separator) == pieces
  {
    if |pieces| == 1 {
      SplitWhole(pieces[0], separator);
    } else {
      SplitJoin(pieces[1..], separator);
      SplitPrefix(pieces[0], Join(pieces[1..], separator), separator);
    }
  }

  /** The index a token names in an array, as a property key does. */
  function DecimalText(n: nat): string {
    if n < 10 then ["0123456789"[n]] else DecimalText(n / 10) + ["0123456789"[n % 10]]
  }

  function Element(elements: seq<Json>, token: string, from: nat): (r: Option<Json>)
    requires from <= |elements|
    ensures r.Some? ==> r.value in elements
    decreases |elements| - from
  {
    if from == |elements| then None
    else if DecimalText(from) == token then Some(elements[from])
    else Element(elements, token, from + 1)
  }

  /** One member of a value, as a property access reads it; only own enumerable members and `length` are there. */
  function Member(j: Json, token: string): Option<Json> {
    match j
    case Obj(fields) => Get(fields, token)
    case Arr(elements) => if token == "length" then Some(Number(|elements|)) else Element(elements, token, 0)
    case _ => None
  }

  function Follow(j: Json, tokens: seq<string>): Option<Json>
    decreases |tokens|
  {
    if tokens == [] then Some(j)
    else
      var next := Member(j, tokens[0]);
      if next.None? then None else Follow(next.value, tokens[1..])
  }

  predicate IsLocal(ref: string) {
    |ref| >= 2 && ref[0] == '#' && ref[1] == '/'
  }

  function Decoded(tokens: seq<string>): (r: seq<string>)
    ensures |r| == |tokens|
  {
    seq(|tokens|, i requires 0 <= i < |tokens| => DecodeToken(tokens[i]))
  }

  function Encoded(keys: seq<string>): (r: seq<string>)
    ensures |r| == |keys|
  {
    seq(|keys|, i requires 0 <= i < |keys| => EncodeToken(keys[i]))
  }

  /** What a local reference points at in the root, if it is one and resolves. */
  function Resolved(root: Json, ref: string): Option<Json> {
    if IsLocal(ref) then Follow(root, Decoded(Split(ref[2..], '/'))) else None
  }

  /** The pointer written for a path of keys resolves to exactly what the path leads to, whatever the keys hold. */
  lemma PointerRoundTrip(root: Json, keys: seq<string>)
    requires keys != []
    ensures Resolved(root, "#/" + Join(Encoded(keys), '/')) == Follow(root, keys)
  {
    var tokens := Encoded(keys);
    forall p | p in tokens ensures '/' !in p {
      var i :| 0 <= i < |tokens| && tokens[i] == p;
      EncodedHasNoSlash(keys[i]);
    }
    SplitJoin(tokens, '/');
    assert ("#/" + Join(tokens, '/'))[2..] == Join(tokens, '/');
    forall i | 0 <= i < |keys| ensures Decoded(tokens)[i] == keys[i] {
      DecodeEncode(keys[i]);
    }
    assert Decoded(tokens) == keys;
  }

  /** Walks a reference token by token; a value that is no container ends the walk. */
  method Resolve(root: Json, ref: string) returns (target: Option<Json>)
    ensures target == Resolved(root, ref)
  {
    if !IsLocal(ref) {
      return None;
    }
    var tokens := Split(ref[2..], '/');
    var node := Some(root);
    var i := 0;
    while i < |tokens|
      invariant i <= |tokens|
      invariant (if node.Some? then Follow(node.value, Decoded(tokens)[i..]) else None) == Resolved(root, ref)
    {
      if node.None? || !(node.value.Obj? || node.value.Arr?) {
        return None;
      }
      node := Member(node.value, DecodeToken(tokens[i]));
      i := i + 1;
    }
    return node;
  }
}
