/**
 * The Python values the photo service handles: decoded JSON response bodies and the output of the
 * binary property-list reader, together with the dictionary operations the service performs on them
 * and the collaborators it calls but does not implement (base64, the property-list reader, text
 * decoding).
 */
module Values {
  import opened Wrappers

  newtype byte = x: int | 0 <= x < 256

  /** A Python value as it occurs in a response body or in a decoded property list. */
  datatype Value =
    | VNone
    | VBool(b: bool)
    | VInt(i: int)
    | VFloat(r: real)
    | VStr(s: string)
    | VBytes(bytes: seq<byte>)
    | VList(items: seq<Value>)
    | VTuple(items: seq<Value>)
    | VDict(entries: Entries)

  /** The items of a Python dict, in insertion order. */
  type Entries = seq<(string, Value)>

  /** The Python exceptions the modelled code can raise. */
  datatype Error =
    | KeyError(key: Value)
    | IndexError
    | TypeError
    | AttributeError
    | Base64Error      // binascii.Error or TypeError raised by base64.b64decode
    | PlistError       // any failure of the property-list reader other than a bad magic number
    | UnicodeError     // bytes.decode failed
    | QueryFailed      // the injected query executor failed
    | NotActivated     // PyiCloudServiceNotActivatedException

  /** A CloudKit record: `recordName`, `recordType` and its `fields` mapping. */
  datatype Record = Record(recordName: string, recordType: string, fields: Entries)

  /** Python truthiness. */
  predicate Truthy(v: Value) {
    match v
    case VNone => false
    case VBool(b) => b
    case VInt(i) => i != 0
    case VFloat(r) => r != 0.0
    case VStr(s) => s != []
    case VBytes(b) => b != []
    case VList(xs) => xs != []
    case VTuple(xs) => xs != []
    case VDict(es) => es != []
  }

  /** Position of the binding of `k` in a dict's items, if any. */
  function Find<V>(es: seq<(string, V)>, k: string): (r: Option<nat>)
    ensures r.Some? ==> r.value < |es| && es[r.value].0 == k
    ensures r.Some? ==> forall j :: 0 <= j < r.value ==> es[j].0 != k
    ensures r.None? ==> forall j :: 0 <= j < |es| ==> es[j].0 != k
  {
    if es == [] then None
    else if es[0].0 == k then Some(0)
    else match Find(es[1..], k)
      case None => None
      case Some(j) => Some(j + 1)
  }

  predicate HasKey<V>(es: seq<(string, V)>, k: string) {
    Find(es, k).Some?
  }

  /** `k in d` then `d[k]`. */
  function Get<V>(es: seq<(string, V)>, k: string): Option<V> {
    match Find(es, k)
    case None => None
    case Some(j) => Some(es[j].1)
  }

  /** `d.get(k, default)`. */
  function GetOr<V>(es: seq<(string, V)>, k: string, default: V): V {
    Get(es, k).GetOr(default)
  }

  /** `d[k] = v`: an existing key keeps its position, a new key goes last. */
  function Put<V>(es: seq<(string, V)>, k: string, v: V): (r: seq<(string, V)>)
    ensures |r| <= |es| + 1
  {
    if es == [] then [(k, v)]
    else if es[0].0 == k then [(k, v)] + es[1..]
    else [es[0]] + Put(es[1..], k, v)
  }

  lemma {:induction false} GetPut<V>(es: seq<(string, V)>, k: string, v: V, k': string)
    ensures Get(Put(es, k, v), k') == if k' == k then Some(v) else Get(es, k')
  {
    if es != [] && es[0].0 != k {
      GetPut(es[1..], k, v, k');
      assert Put(es, k, v)[1..] == Put(es[1..], k, v);
    }
  }

  /** Assignment keeps every existing key at its position. */
  lemma {:induction false} PutKeys<V>(es: seq<(string, V)>, k: string, v: V)
    ensures |Put(es, k, v)| >= |es|
    ensures forall i :: 0 <= i < |es| ==> Put(es, k, v)[i].0 == es[i].0
  {
    if es != [] && es[0].0 != k {
      PutKeys(es[1..], k, v);
    }
  }

  /** `v[k]` for a string key. */
  function Index(v: Value, k: string): Result<Value, Error> {
    if !v.VDict? then Err(TypeError)
    else match Get(v.entries, k)
      case None => Err(KeyError(VStr(k)))
      case Some(x) => Ok(x)
  }

  /** `v.get(k, default)`: only dicts have a `get` method. */
  function DictGet(v: Value, k: string, default: Value): Result<Value, Error> {
    if v.VDict? then Ok(GetOr(v.entries, k, default)) else Err(AttributeError)
  }

  /** `v[i]` for an integer position. */
  function Item(v: Value, i: nat): Result<Value, Error> {
    match v
    case VList(xs) => if i < |xs| then Ok(xs[i]) else Err(IndexError)
    case VTuple(xs) => if i < |xs| then Ok(xs[i]) else Err(IndexError)
    case VStr(s) => if i < |s| then Ok(VStr([s[i]])) else Err(IndexError)
    case VBytes(b) => if i < |b| then Ok(VInt(b[i] as int)) else Err(IndexError)
    case VDict(_) => Err(KeyError(VInt(i)))
    case _ => Err(TypeError)
  }

  /** Values that cannot be dict keys (`TypeError: unhashable type`). */
  predicate Unhashable(v: Value) {
    match v
    case VList(_) => true
    case VDict(_) => true
    case VTuple(xs) => exists i :: 0 <= i < |xs| && Unhashable(xs[i])
    case _ => false
  }

  /** `d.get(key)` on a table whose keys are strings: no other key matches, an unhashable one raises. */
  function Lookup<V>(table: seq<(string, V)>, key: Value): Result<Option<V>, Error> {
    if Unhashable(key) then Err(TypeError)
    else if key.VStr? then Ok(Get(table, key.s))
    else Ok(None)
  }

  /** Number of children of a container value. */
  function Children(v: Value): nat {
    match v
    case VList(xs) => |xs|
    case VTuple(xs) => |xs|
    case VDict(es) => |es|
    case _ => 0
  }

  function Child(v: Value, i: nat): Value
    requires i < Children(v)
  {
    match v
    case VList(xs) => xs[i]
    case VTuple(xs) => xs[i]
    case VDict(es) => es[i].1
  }

  /** Length of the longest string or byte string anywhere inside `v`. */
  ghost function MaxAtom(v: Value): nat
    decreases v, 1
  {
    match v
    case VStr(s) => |s|
    case VBytes(b) => |b|
    case VList(_) => MaxAtomFrom(v, 0)
    case VTuple(_) => MaxAtomFrom(v, 0)
    case VDict(_) => MaxAtomFrom(v, 0)
    case _ => 0
  }

  ghost function MaxAtomFrom(v: Value, i: nat): nat
    decreases v, 0, Children(v) - i
  {
    if i >= Children(v) then 0
    else
      var a := MaxAtom(Child(v, i));
      var b := MaxAtomFrom(v, i + 1);
      if a < b then b else a
  }

  lemma {:induction false} MaxAtomChild(v: Value, i: nat)
    requires i < Children(v)
    ensures MaxAtom(Child(v, i)) <= MaxAtom(v)
  {
    MaxAtomChildFrom(v, 0, i);
  }

  /** The same bound stated for a dict item. */
  lemma MaxAtomEntry(es: Entries, i: nat)
    requires i < |es|
    ensures MaxAtom(es[i].1) <= MaxAtom(VDict(es))
  {
    MaxAtomChild(VDict(es), i);
  }

  lemma {:induction false} MaxAtomChildFrom(v: Value, k: nat, i: nat)
    requires k <= i < Children(v)
    ensures MaxAtom(Child(v, i)) <= MaxAtomFrom(v, k)
    decreases i - k
  {
    if k < i {
      MaxAtomChildFrom(v, k + 1, i);
    }
  }

  /** What `BPListReader(data).parse()` does: a value, `BadMagicException`, or another failure. */
  datatype Plist = Parsed(value: Value) | BadMagic | OtherError

  /**
   * The library calls the service relies on without implementing them: `base64.b64decode`
   * (RFC 4648, section 4), the binary property-list reader, and `bytes.decode` for UTF-8 and UTF-16.
   * `None` stands for the exception the call raises.
   */
  datatype Codecs = Codecs(
    b64decode: Value -> Option<seq<byte>>,
    bplist: Value -> Plist,
    utf8: seq<byte> -> Option<string>,
    utf16: seq<byte> -> Option<string>)

  /** `base64.b64decode(v)`. */
  function DecodeBase64(c: Codecs, v: Value): Result<seq<byte>, Error> {
    match c.b64decode(v)
    case None => Err(Base64Error)
    case Some(raw) => Ok(raw)
  }

  /** `raw.decode("utf-8")`. */
  function DecodeUtf8(c: Codecs, raw: seq<byte>): Result<string, Error> {
    match c.utf8(raw)
    case None => Err(UnicodeError)
    case Some(s) => Ok(s)
  }

  /**
   * What is known of the collaborators and needed for the recursive field normaliser to terminate:
   * base64 decoding never lengthens its input, and every string or byte string in a parsed
   * property list is shorter than the buffer it came from (the buffer holds it together with an
   * 8-byte header and a 32-byte trailer).
   */
  ghost predicate Shrinks(c: Codecs) {
    && (forall x :: DecodeShrinks(c, x))
    && (forall raw :: ParseShrinks(c, raw))
  }

  ghost predicate DecodeShrinks(c: Codecs, x: Value) {
    c.b64decode(x).Some? ==> |c.b64decode(x).value| <= MaxAtom(x)
  }

  ghost predicate ParseShrinks(c: Codecs, raw: seq<byte>) {
    c.bplist(VBytes(raw)).Parsed? ==> MaxAtom(c.bplist(VBytes(raw)).value) < |raw|
  }
}
