/**
 * `parse_fields`: the normaliser that turns a record's field mapping into plain values. Typed
 * envelopes `{type, value}` are unwrapped, `...Enc` fields are base64-decoded and read as binary
 * property lists, nested dicts are normalised in turn, pairs are reduced to their second element and
 * byte strings are decoded as text where possible.
 */
module FieldParser {
  import opened Wrappers
  import opened Values
  import opened Text

  /** `key.replace("Enc", "")`: every occurrence, scanned left to right. */
  function StripEnc(key: string): string
    decreases |key|
  {
    if |key| < 3 then key
    else if key[..3] == "Enc" then StripEnc(key[3..])
    else [key[0]] + StripEnc(key[1..])
  }

  /** The key a field is stored under in the result. */
  function OutputKey(key: string): string {
    if EndsWith(key, "Enc") then StripEnc(key) else key
  }

  /**
   * `BPListReader(base64.b64decode(val)).parse()`, falling back to the decoded bytes themselves on
   * `BadMagicException`; every other failure propagates.
   */
  function DecodeEnc(c: Codecs, val: Value): (r: Result<Value, Error>)
    requires Shrinks(c)
    ensures r.Ok? && r.value.VDict? ==> MaxAtom(r.value) < MaxAtom(val)
  {
    assert DecodeShrinks(c, val);
    assert c.b64decode(val).Some? ==> ParseShrinks(c, c.b64decode(val).value);
    match c.b64decode(val)
    case None => Err(Base64Error)
    case Some(raw) =>
      match c.bplist(VBytes(raw))
      case Parsed(v) => Ok(v)
      case BadMagic => Ok(VBytes(raw))
      case OtherError => Err(PlistError)
  }

  /** A pair becomes its second element. */
  function ReducePair(v: Value): Value {
    if v.VTuple? && |v.items| == 2 then v.items[1] else v
  }

  /** Bytes become their UTF-8 text, else their UTF-16 text, else stay bytes. */
  function DecodeText(c: Codecs, v: Value): Value {
    if !v.VBytes? then v
    else match c.utf8(v.bytes)
      case Some(s) => VStr(s)
      case None =>
        match c.utf16(v.bytes)
        case Some(s) => VStr(s)
        case None => v
  }

  /** The value stored for one field `key: value`. */
  function NormalizeValue(c: Codecs, key: string, value: Value): Result<Value, Error>
    requires Shrinks(c)
    decreases MaxAtom(value), value, 2
  {
    if value.VDict? && HasKey(value.entries, "value") then
      var j := Find(value.entries, "value").value;
      MaxAtomEntry(value.entries, j);
      NormalizeUnwrapped(c, key, value.entries[j].1)
    else
      NormalizeUnwrapped(c, key, value)
  }

  /** The rest of the work on a field once its envelope is gone. */
  function NormalizeUnwrapped(c: Codecs, key: string, val: Value): Result<Value, Error>
    requires Shrinks(c)
    decreases MaxAtom(val), val, 1
  {
    var decoded := if EndsWith(key, "Enc") then DecodeEnc(c, val) else Ok(val);
    if decoded.Err? then Err(decoded.error)
    else
      var nested :=
        if decoded.value.VDict? then
          match NormalizeFrom(c, decoded.value, 0, [])
          case Err(e) => Err(e)
          case Ok(es) => Ok(VDict(es))
        else Ok(decoded.value);
      if nested.Err? then Err(nested.error)
      else Ok(DecodeText(c, ReducePair(nested.value)))
  }

  /** The loop of `parse_fields` from the `i`-th item on, with `acc` the dict built so far. */
  function NormalizeFrom(c: Codecs, d: Value, i: nat, acc: Entries): Result<Entries, Error>
    requires Shrinks(c) && d.VDict? && i <= |d.entries|
    decreases MaxAtom(d), d, 0, |d.entries| - i
  {
    if i == |d.entries| then Ok(acc)
    else
      MaxAtomEntry(d.entries, i);
      match NormalizeValue(c, d.entries[i].0, d.entries[i].1)
      case Err(e) => Err(e)
      case Ok(v) => NormalizeFrom(c, d, i + 1, Put(acc, OutputKey(d.entries[i].0), v))
  }

  /** `parse_fields(fields)`. */
  function NormalizeFields(c: Codecs, fields: Entries): Result<Entries, Error>
    requires Shrinks(c)
  {
    NormalizeFrom(c, VDict(fields), 0, [])
  }

  /** `parse_fields` as the source writes it: a loop over the items that fills `parsed`. */
  method ParseFields(c: Codecs, fields: Entries) returns (r: Result<Entries, Error>)
    requires Shrinks(c)
    ensures r == NormalizeFields(c, fields)
    decreases MaxAtom(VDict(fields)), VDict(fields), 0
  {
    var d := VDict(fields);
    var parsed: Entries := [];
    var i := 0;
    while i < |fields|
      invariant 0 <= i <= |fields|
      invariant NormalizeFrom(c, d, i, parsed) == NormalizeFields(c, fields)
    {
      MaxAtomEntry(fields, i);
      var entry := ParseEntry(c, fields[i].0, fields[i].1);
      if entry.Err? {
        return Err(entry.error);
      }
      var (key, val) := entry.value;
      parsed := Put(parsed, key, val);
      i := i + 1;
    }
    r := Ok(parsed);
  }

  /** The body of the loop of `parse_fields`: unwraps the envelope, then rebinds `val` step by step. */
  method ParseEntry(c: Codecs, key: string, value: Value) returns (r: Result<(string, Value), Error>)
    requires Shrinks(c)
    ensures NormalizeValue(c, key, value).Err? ==> r == Err(NormalizeValue(c, key, value).error)
    ensures NormalizeValue(c, key, value).Ok? ==> r == Ok((OutputKey(key), NormalizeValue(c, key, value).value))
    decreases MaxAtom(value), value, 2
  {
    var val := value;
    if value.VDict? && HasKey(value.entries, "value") {
      var j := Find(value.entries, "value").value;
      MaxAtomEntry(value.entries, j);
      val := value.entries[j].1;
    }
    r := ParseUnwrapped(c, key, val);
  }

  /** `BPListReader(base64.b64decode(val)).parse()` with the `BadMagicException` fallback. */
  method DecodeEncField(c: Codecs, val: Value) returns (r: Result<Value, Error>)
    requires Shrinks(c)
    ensures r == DecodeEnc(c, val)
  {
    var raw := c.b64decode(val);
    if raw.None? {
      return Err(Base64Error);
    }
    match c.bplist(VBytes(raw.value)) {
      case Parsed(v) =>
        r := Ok(v);
      case BadMagic =>
        r := Ok(VBytes(raw.value));
      case OtherError =>
        r := Err(PlistError);
    }
  }

  /** The steps after unwrapping: decode an `...Enc` field, recurse into dicts, reduce, decode text. */
  method ParseUnwrapped(c: Codecs, key: string, unwrapped: Value) returns (r: Result<(string, Value), Error>)
    requires Shrinks(c)
    ensures NormalizeUnwrapped(c, key, unwrapped).Err? ==> r == Err(NormalizeUnwrapped(c, key, unwrapped).error)
    ensures NormalizeUnwrapped(c, key, unwrapped).Ok? ==>
      r == Ok((OutputKey(key), NormalizeUnwrapped(c, key, unwrapped).value))
    decreases MaxAtom(unwrapped), unwrapped, 1
  {
    var k := key;
    var val := unwrapped;
    if EndsWith(k, "Enc") {
      var decoded := DecodeEncField(c, val);
      if decoded.Err? {
        return Err(decoded.error);
      }
      val := decoded.value;
      k := StripEnc(k);
    }
    assert val == (if EndsWith(key, "Enc") then DecodeEnc(c, unwrapped) else Ok(unwrapped)).value;

    ghost var decoded := val;
    if val.VDict? {
      var nested := ParseFields(c, val.entries);
      if nested.Err? {
        return Err(nested.error);
      }
      val := VDict(nested.value);
    }
    assert decoded.VDict? ==> NormalizeFrom(c, decoded, 0, []) == Ok(val.entries);
    if val.VTuple? && |val.items| == 2 {
      val := val.items[1];
    }
    val := DecodeBytes(c, val);
    r := Ok((k, val));
  }

  /** The last step of the loop body: byte strings become text when one of the two codecs accepts them. */
  method DecodeBytes(c: Codecs, v: Value) returns (r: Value)
    ensures r == DecodeText(c, v)
  {
    r := v;
    if r.VBytes? {
      var text := c.utf8(r.bytes);
      if text.Some? {
        r := VStr(text.value);
      } else {
        text := c.utf16(r.bytes);
        if text.Some? {
          r := VStr(text.value);
        }
      }
    }
  }

  /** The last item from position `i` on whose output key is `k`. */
  function LastIn(es: Entries, i: nat, k: string): (r: Option<nat>)
    requires i <= |es|
    ensures r.Some? ==> i <= r.value < |es| && OutputKey(es[r.value].0) == k
    ensures r.Some? ==> forall j :: r.value < j < |es| ==> OutputKey(es[j].0) != k
    ensures r.None? ==> forall j :: i <= j < |es| ==> OutputKey(es[j].0) != k
    decreases |es| - i
  {
    if i == |es| then None
    else match LastIn(es, i + 1, k)
      case Some(j) => Some(j)
      case None => if OutputKey(es[i].0) == k then Some(i) else None
  }

  /** The loop from position `i` on succeeds exactly when every remaining item normalises. */
  lemma {:induction false} FromOk(c: Codecs, d: Value, i: nat, acc: Entries)
    requires Shrinks(c) && d.VDict? && i <= |d.entries|
    ensures NormalizeFrom(c, d, i, acc).Ok? <==>
      forall j :: i <= j < |d.entries| ==> NormalizeValue(c, d.entries[j].0, d.entries[j].1).Ok?
    decreases |d.entries| - i
  {
    if i < |d.entries| {
      var v := NormalizeValue(c, d.entries[i].0, d.entries[i].1);
      if v.Ok? {
        FromOk(c, d, i + 1, Put(acc, OutputKey(d.entries[i].0), v.value));
      }
    }
  }

  /** A failure is the exception of the first item that fails. */
  lemma {:induction false} FromErr(c: Codecs, d: Value, i: nat, acc: Entries)
    requires Shrinks(c) && d.VDict? && i <= |d.entries|
    requires NormalizeFrom(c, d, i, acc).Err?
    ensures exists j :: (i <= j < |d.entries|
      && (forall j' :: i <= j' < j ==> NormalizeValue(c, d.entries[j'].0, d.entries[j'].1).Ok?)
      && NormalizeValue(c, d.entries[j].0, d.entries[j].1) == Err(NormalizeFrom(c, d, i, acc).error))
    decreases |d.entries| - i
  {
    var v := NormalizeValue(c, d.entries[i].0, d.entries[i].1);
    if v.Ok? {
      var acc' := Put(acc, OutputKey(d.entries[i].0), v.value);
      FromErr(c, d, i + 1, acc');
      var j :| i + 1 <= j < |d.entries|
        && (forall j' :: i + 1 <= j' < j ==> NormalizeValue(c, d.entries[j'].0, d.entries[j'].1).Ok?)
        && NormalizeValue(c, d.entries[j].0, d.entries[j].1) == Err(NormalizeFrom(c, d, i + 1, acc').error);
      assert forall j' :: i <= j' < j ==> NormalizeValue(c, d.entries[j'].0, d.entries[j'].1).Ok?;
    } else {
      assert NormalizeValue(c, d.entries[i].0, d.entries[i].1) == Err(NormalizeFrom(c, d, i, acc).error);
    }
  }

  /** After the loop from position `i`, `k` holds the value of the last item stored under `k`. */
  lemma {:induction false} FromGet(c: Codecs, d: Value, i: nat, acc: Entries, k: string)
    requires Shrinks(c) && d.VDict? && i <= |d.entries|
    requires NormalizeFrom(c, d, i, acc).Ok?
    ensures var out := NormalizeFrom(c, d, i, acc).value;
      match LastIn(d.entries, i, k)
      case None => Get(out, k) == Get(acc, k)
      case Some(j) =>
        NormalizeValue(c, d.entries[j].0, d.entries[j].1).Ok?
        && Get(out, k) == Some(NormalizeValue(c, d.entries[j].0, d.entries[j].1).value)
    decreases |d.entries| - i
  {
    if i < |d.entries| {
      var v := NormalizeValue(c, d.entries[i].0, d.entries[i].1);
      var acc' := Put(acc, OutputKey(d.entries[i].0), v.value);
      FromGet(c, d, i + 1, acc', k);
      GetPut(acc, OutputKey(d.entries[i].0), v.value, k);
    }
  }

  /**
   * `parse_fields` fails exactly when one of the fields fails, and then with the exception of the
   * first field that fails.
   */
  lemma FieldsErr(c: Codecs, fields: Entries)
    requires Shrinks(c)
    ensures NormalizeFields(c, fields).Ok? <==>
      forall j :: 0 <= j < |fields| ==> NormalizeValue(c, fields[j].0, fields[j].1).Ok?
    ensures NormalizeFields(c, fields).Err? ==> exists j :: (0 <= j < |fields|
      && (forall j' :: 0 <= j' < j ==> NormalizeValue(c, fields[j'].0, fields[j'].1).Ok?)
      && NormalizeValue(c, fields[j].0, fields[j].1) == Err(NormalizeFields(c, fields).error))
  {
    FromOk(c, VDict(fields), 0, []);
    if NormalizeFields(c, fields).Err? {
      FromErr(c, VDict(fields), 0, []);
    }
  }

  /**
   * The output has a key `k` exactly when some field's output key is `k`, and its value is the
   * normalised value of the last such field: a later field overwrites an earlier one.
   */
  lemma FieldsGet(c: Codecs, fields: Entries, k: string)
    requires Shrinks(c)
    requires NormalizeFields(c, fields).Ok?
    ensures var out := NormalizeFields(c, fields).value;
      && (HasKey(out, k) <==> exists j :: 0 <= j < |fields| && OutputKey(fields[j].0) == k)
      && forall j :: (0 <= j < |fields| && OutputKey(fields[j].0) == k
           && (forall j' :: j < j' < |fields| ==> OutputKey(fields[j'].0) != k)) ==>
           (NormalizeValue(c, fields[j].0, fields[j].1).Ok?
            && Get(out, k) == Some(NormalizeValue(c, fields[j].0, fields[j].1).value))
  {
    FromGet(c, VDict(fields), 0, [], k);
  }

  /** A key that does not end in `Enc` is kept as it is. */
  lemma PlainKey(key: string)
    requires !EndsWith(key, "Enc")
    ensures OutputKey(key) == key
  {
  }

  /** The trailing `Enc` is always removed, together with every earlier occurrence. */
  lemma {:induction false} StripEncSuffix(p: string)
    ensures OutputKey(p + "Enc") == StripEnc(p)
  {
    assert EndsWith(p + "Enc", "Enc") by {
      assert (p + "Enc")[|p|..] == "Enc";
    }
    StripEncAppend(p);
  }

  lemma {:induction false} StripEncAppend(p: string)
    ensures StripEnc(p + "Enc") == StripEnc(p)
    decreases |p|
  {
    var s := p + "Enc";
    if p == [] {
      assert s == "Enc";
      assert s[3..] == [];
    } else if |p| >= 3 && p[..3] == "Enc" {
      assert s[..3] == "Enc";
      assert s[3..] == p[3..] + "Enc";
      StripEncAppend(p[3..]);
    } else {
      assert s[..3] != "Enc" by {
        if |p| == 1 { assert s[1] == 'E'; }
        else if |p| == 2 { assert s[2] == 'E'; }
        else { assert s[..3] == p[..3]; }
      }
      assert s[1..] == p[1..] + "Enc";
      StripEncAppend(p[1..]);
      if |p| < 3 {
        assert StripEnc(p) == p;
        assert StripEnc(p[1..]) == p[1..];
      }
    }
  }

  /** `Enc` occurs in `p` at position `i`. */
  predicate EncAt(p: string, i: nat) {
    i + 3 <= |p| && p[i..i + 3] == "Enc"
  }

  /** A key without `Enc` inside it is unchanged by the removal. */
  lemma {:induction false} StripEncNone(p: string)
    requires forall i :: !EncAt(p, i)
    ensures StripEnc(p) == p
    decreases |p|
  {
    if |p| >= 3 {
      assert !EncAt(p, 0);
      assert p[..3] == p[0..3];
      forall i: nat ensures !EncAt(p[1..], i) {
        assert !EncAt(p, i + 1);
        if i + 3 <= |p[1..]| {
          assert p[1..][i..i + 3] == p[i + 1..i + 4];
        }
      }
      StripEncNone(p[1..]);
    }
  }

  /** One left-to-right pass: removing `Enc` can bring a new `Enc` together, which stays. */
  lemma StripEncOnePass()
    ensures OutputKey("EEncncEnc") == "Enc"
  {
    assert EndsWith("EEncncEnc", "Enc");
    StripEncAppend("EEncnc");
    assert "EEncnc"[..3] == "EEn";
    assert "EEncnc"[1..] == "Encnc";
    assert "Encnc"[..3] == "Enc";
    assert "Encnc"[3..] == "nc";
  }

  /** A value none of the later steps touch: not a dict, not a pair, not bytes. */
  predicate Plain(v: Value) {
    !v.VDict? && !(v.VTuple? && |v.items| == 2) && !v.VBytes?
  }

  /** A value that is not a `{..., "value": ...}` envelope. */
  predicate Unwrapped(v: Value) {
    !(v.VDict? && HasKey(v.entries, "value"))
  }

  /** The normalised form of a dict: its fields normalised in turn. */
  function NestedResult(c: Codecs, es: Entries): Result<Value, Error>
    requires Shrinks(c)
  {
    match NormalizeFields(c, es)
    case Err(e) => Err(e)
    case Ok(out) => Ok(VDict(out))
  }

  /** Under a plain key a plain value passes through, bare or inside an envelope. */
  lemma PlainValue(c: Codecs, key: string, v: Value)
    requires Shrinks(c) && !EndsWith(key, "Enc") && Plain(v)
    ensures NormalizeValue(c, key, v) == Ok(v)
    ensures forall es :: Get(es, "value") == Some(v) ==> NormalizeValue(c, key, VDict(es)) == Ok(v)
  {
  }

  /**
   * Under a plain key a dict is replaced by its `"value"` item when it has one, and otherwise kept;
   * a dict that results is normalised in turn.
   */
  lemma DictValue(c: Codecs, key: string, es: Entries)
    requires Shrinks(c) && !EndsWith(key, "Enc")
    ensures !HasKey(es, "value") ==> NormalizeValue(c, key, VDict(es)) == NestedResult(c, es)
    ensures forall inner :: Get(es, "value") == Some(VDict(inner)) ==>
      NormalizeValue(c, key, VDict(es)) == NestedResult(c, inner)
  {
  }

  /** Under any key a field whose `value` is `x`, whatever else it holds, normalises as `x` does. */
  lemma EnvelopeValue(c: Codecs, key: string, es: Entries, x: Value)
    requires Shrinks(c) && Get(es, "value") == Some(x) && Unwrapped(x)
    ensures NormalizeValue(c, key, VDict(es)) == NormalizeValue(c, key, x)
  {
  }

  /**
   * A pair is reduced to its second item, which is then decoded as text if it is bytes; a dict in
   * second place is not normalised, since the dict step comes first.
   */
  lemma PairValue(c: Codecs, key: string, a: Value, b: Value)
    requires Shrinks(c) && !EndsWith(key, "Enc")
    ensures NormalizeValue(c, key, VTuple([a, b])) == Ok(DecodeText(c, b))
    ensures b.VDict? ==> NormalizeValue(c, key, VTuple([a, b])) == Ok(b)
  {
  }

  /** Bytes become UTF-8 text, failing that UTF-16 text, failing that they stay bytes. */
  lemma BytesValue(c: Codecs, key: string, bs: seq<byte>)
    requires Shrinks(c) && !EndsWith(key, "Enc")
    ensures c.utf8(bs).Some? ==> NormalizeValue(c, key, VBytes(bs)) == Ok(VStr(c.utf8(bs).value))
    ensures c.utf8(bs).None? && c.utf16(bs).Some? ==>
      NormalizeValue(c, key, VBytes(bs)) == Ok(VStr(c.utf16(bs).value))
    ensures c.utf8(bs).None? && c.utf16(bs).None? ==> NormalizeValue(c, key, VBytes(bs)) == Ok(VBytes(bs))
  {
  }

  /**
   * Under an `Enc` key: a base64 failure and a property-list failure other than a bad magic number
   * propagate; a bad magic number leaves the decoded bytes, read as text where possible; a parsed
   * list is normalised like any other value. A field whose `value` is `x`, whatever else it holds,
   * gives the same result as `x` itself.
   */
  lemma EncValue(c: Codecs, key: string, x: Value)
    requires Shrinks(c) && EndsWith(key, "Enc") && Unwrapped(x)
    ensures c.b64decode(x).None? ==> NormalizeValue(c, key, x) == Err(Base64Error)
    ensures c.b64decode(x).Some? ==> var raw := c.b64decode(x).value;
      && (c.bplist(VBytes(raw)).OtherError? ==> NormalizeValue(c, key, x) == Err(PlistError))
      && (c.bplist(VBytes(raw)).BadMagic? ==> NormalizeValue(c, key, x) == Ok(DecodeText(c, VBytes(raw))))
      && (c.bplist(VBytes(raw)).Parsed? && Plain(c.bplist(VBytes(raw)).value) ==>
            NormalizeValue(c, key, x) == Ok(c.bplist(VBytes(raw)).value))
      && (c.bplist(VBytes(raw)).Parsed? && c.bplist(VBytes(raw)).value.VDict? ==>
            NormalizeValue(c, key, x) == NestedResult(c, c.bplist(VBytes(raw)).value.entries))
    ensures forall es :: Get(es, "value") == Some(x) ==> NormalizeValue(c, key, VDict(es)) == NormalizeValue(c, key, x)
  {
  }

  /**
   * A `filenameEnc` field as the service receives it: an envelope around base64 text whose bytes
   * are not a property list. The output is a `filename` field holding the text.
   */
  lemma FilenameField(c: Codecs, b64: string, raw: seq<byte>, name: string)
    requires Shrinks(c)
    requires c.b64decode(VStr(b64)) == Some(raw)
    requires c.bplist(VBytes(raw)) == BadMagic
    requires c.utf8(raw) == Some(name)
    ensures NormalizeFields(c, [("filenameEnc", VDict([("value", VStr(b64)), ("type", VStr("ENCRYPTED_BYTES"))]))])
      == Ok([("filename", VStr(name))])
  {
    var envelope := VDict([("value", VStr(b64)), ("type", VStr("ENCRYPTED_BYTES"))]);
    FilenameKey();
    assert Get(envelope.entries, "value") == Some(VStr(b64));
    EncValue(c, "filenameEnc", VStr(b64));
    assert NormalizeValue(c, "filenameEnc", envelope) == Ok(VStr(name));
    var fields := [("filenameEnc", envelope)];
    var d := VDict(fields);
    assert NormalizeFrom(c, d, 1, [("filename", VStr(name))]) == Ok([("filename", VStr(name))]);
    assert Put([], "filename", VStr(name)) == [("filename", VStr(name))];
    assert NormalizeFrom(c, d, 0, []) == NormalizeFrom(c, d, 1, [("filename", VStr(name))]);
  }

  lemma FilenameKey()
    ensures EndsWith("filenameEnc", "Enc") && OutputKey("filenameEnc") == "filename"
  {
    assert "filenameEnc"[8..] == "Enc";
    StripEncAppend("filename");
    assert "filename" + "Enc" == "filenameEnc";
    forall i: nat ensures !EncAt("filename", i) {
      if i + 3 <= 8 {
        assert "filename"[i..i + 3][0] == "filename"[i] != 'E';
      }
    }
    StripEncNone("filename");
  }
}
