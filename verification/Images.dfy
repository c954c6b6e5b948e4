/** The native policy packet (native_policy.py): nested image lists become byte envelopes, losslessly
    and once. */
module Images {
  import opened Basics
  import opened Utf8
  import Base64
  import Text = Stream

  /** A decoded JSON value. */
  datatype Json =
    | Null | Bool(b: bool) | Int(n: int) | Float(text: string, finite: bool) | Str(s: string)
    | Array(items: seq<Json>) | Object(fields: map<string, Json>)

  datatype Pixels = Pixels(shape: seq<nat>, raw: seq<Byte>)

  // ---- nested lists ----

  predicate Uint8(v: Json) { v.Int? && 0 <= v.n <= 255 }

  function Bytes(items: seq<Json>): (r: seq<Byte>)
    requires forall i :: i in items ==> Uint8(i)
    ensures |r| == |items|
  {
    if items == [] then [] else
    assert Uint8(items[0]);
    var b: Byte := items[0].n;
    [b] + Bytes(items[1..])
  }

  /** `_nested_uint8`. */
  function Flatten(v: Json): Result<Pixels>
    decreases v, 0
  {
    if !v.Array? || v.items == [] then Err(Error.Value)
    else if v.items[0].Array? then
      match FlattenAll(v.items)
      case Err(e) => Err(e)
      case Ok(children) =>
        if forall c :: c in children ==> c.shape == children[0].shape
        then Ok(Pixels([|v.items|] + children[0].shape, AllRaw(children)))
        else Err(Error.Value)
    else if forall i :: i in v.items ==> Uint8(i) then Ok(Pixels([|v.items|], Bytes(v.items)))
    else Err(Error.Value)
  }

  function FlattenAll(items: seq<Json>): (r: Result<seq<Pixels>>)
    ensures r.Ok? ==> |r.value| == |items|
    decreases items, 1
  {
    if items == [] then Ok([]) else
    match Flatten(items[0])
    case Err(e) => Err(e)
    case Ok(p) =>
      match FlattenAll(items[1..])
      case Err(e) => Err(e)
      case Ok(ps) => Ok([p] + ps)
  }

  function AllRaw(ps: seq<Pixels>): seq<Byte> { if ps == [] then [] else ps[0].raw + AllRaw(ps[1..]) }

  function Product(shape: seq<nat>): nat { if shape == [] then 1 else shape[0] * Product(shape[1..]) }

  predicate Proper(shape: seq<nat>) { shape != [] && forall d :: d in shape ==> d >= 1 }

  // ---- and back ----

  function Numbers(raw: seq<Byte>): seq<Json> { if raw == [] then [] else [Int(raw[0])] + Numbers(raw[1..]) }

  /** The nested list of a shape over its bytes. */
  function Rebuild(shape: seq<nat>, raw: seq<Byte>): Json
    requires shape != [] && |raw| == Product(shape)
    decreases |shape|, 0, 0
  {
    if |shape| == 1 then Array(Numbers(raw)) else Array(RebuildAll(shape[0], shape[1..], raw))
  }

  function RebuildAll(n: nat, shape: seq<nat>, raw: seq<Byte>): (r: seq<Json>)
    requires shape != [] && |raw| == n * Product(shape)
    ensures |r| == n
    decreases |shape|, 1, n
  {
    if n == 0 then [] else
    var k := Product(shape);
    Slices(n, k);
    [Rebuild(shape, raw[..k])] + RebuildAll(n - 1, shape, raw[k..])
  }

  lemma Slices(n: nat, k: nat)
    requires n > 0
    ensures n * k >= k && n * k - k == (n - 1) * k
  {
  }

  lemma {:induction false} NumbersOfBytes(items: seq<Json>)
    requires forall i :: i in items ==> Uint8(i)
    ensures Numbers(Bytes(items)) == items
  {
    if items != [] {
      NumbersOfBytes(items[1..]);
      assert Bytes(items)[1..] == Bytes(items[1..]);
      assert items == [items[0]] + items[1..];
      assert items[0] in items;
    }
  }

  /** Flattening loses nothing: the bytes are as many as the shape says, and the list is rebuilt from
      shape and bytes. */
  lemma {:induction false} FlattenIsLossless(v: Json)
    requires Flatten(v).Ok?
    ensures var p := Flatten(v).value; Proper(p.shape) && |p.raw| == Product(p.shape) && Rebuild(p.shape, p.raw) == v
    decreases v, 0
  {
    var p := Flatten(v).value;
    if v.items[0].Array? {
      var children := FlattenAll(v.items).value;
      var shape := children[0].shape;
      assert children[0] in children;
      FlattenAllIsLossless(v.items, shape);
      assert p.shape[1..] == shape && p.shape[0] == |v.items|;
      forall d | d in p.shape ensures d >= 1 { assert d == |v.items| || d in shape; }
    } else {
      NumbersOfBytes(v.items);
      assert p.shape[1..] == [];
      assert Product(p.shape) == |v.items| * 1;
    }
  }

  lemma {:induction false} FlattenAllIsLossless(items: seq<Json>, shape: seq<nat>)
    requires items != [] && FlattenAll(items).Ok? && forall c :: c in FlattenAll(items).value ==> c.shape == shape
    ensures Proper(shape) && |AllRaw(FlattenAll(items).value)| == |items| * Product(shape)
    ensures RebuildAll(|items|, shape, AllRaw(FlattenAll(items).value)) == items
    decreases items, 1
  {
    var ps := FlattenAll(items).value;
    assert ps[0] in ps && ps[0] == Flatten(items[0]).value;
    FlattenIsLossless(items[0]);
    var rest := FlattenAll(items[1..]).value;
    assert ps == [ps[0]] + rest && ps[1..] == rest;
    var raw := AllRaw(ps);
    var k := Product(shape);
    Slices(|items|, k);
    assert items == [items[0]] + items[1..];
    if |items| > 1 {
      forall c | c in rest ensures c.shape == shape { assert c in ps; }
      FlattenAllIsLossless(items[1..], shape);
    } else {
      assert rest == [] && items[1..] == [];
      OneSlice(k);
    }
    assert raw[..k] == ps[0].raw && raw[k..] == AllRaw(rest);
  }

  lemma OneSlice(k: nat)
    ensures 1 * k == k && 0 * k == 0
  {
  }

  lemma {:induction false} BytesOfNumbers(raw: seq<Byte>)
    ensures forall i :: i in Numbers(raw) ==> Uint8(i)
    ensures |Numbers(raw)| == |raw| && Bytes(Numbers(raw)) == raw
  {
    if raw != [] {
      BytesOfNumbers(raw[1..]);
      assert Numbers(raw)[1..] == Numbers(raw[1..]);
    }
  }

  /** And every proper shape over as many bytes is reached: rebuilding and flattening are inverse. */
  lemma {:induction false} RebuildIsFlattened(shape: seq<nat>, raw: seq<Byte>)
    requires Proper(shape) && |raw| == Product(shape)
    ensures Flatten(Rebuild(shape, raw)) == Ok(Pixels(shape, raw)) && Rebuild(shape, raw).Array?
    decreases |shape|, 0, 0
  {
    assert shape[0] in shape;
    var v := Rebuild(shape, raw);
    if |shape| == 1 {
      assert shape == [shape[0]] && shape[1..] == [];
      assert Product(shape) == shape[0] * 1;
      BytesOfNumbers(raw);
      assert v.items[0] in v.items;
    } else {
      var rest := shape[1..];
      assert forall d :: d in rest ==> d in shape;
      RebuildAllIsFlattened(shape[0], rest, raw);
      assert shape == [shape[0]] + rest;
    }
  }

  /** The flattened head joins the flattened rest. */
  lemma FlattenedCons(items: seq<Json>, p: Pixels)
    requires items != [] && Flatten(items[0]) == Ok(p) && FlattenAll(items[1..]).Ok?
    ensures FlattenAll(items).Ok? && FlattenAll(items).value == [p] + FlattenAll(items[1..]).value
    ensures AllRaw(FlattenAll(items).value) == p.raw + AllRaw(FlattenAll(items[1..]).value)
    ensures forall c :: c in FlattenAll(items).value <==> c == p || c in FlattenAll(items[1..]).value
  {
    hide Flatten;
    var rest := FlattenAll(items[1..]).value;
    assert ([p] + rest)[1..] == rest;
  }

  lemma {:induction false} RebuildAllIsFlattened(n: nat, shape: seq<nat>, raw: seq<Byte>)
    requires Proper(shape) && |raw| == n * Product(shape)
    ensures var items := RebuildAll(n, shape, raw);
            && FlattenAll(items).Ok? && AllRaw(FlattenAll(items).value) == raw
            && (forall c :: c in FlattenAll(items).value ==> c.shape == shape)
            && (n > 0 ==> items[0].Array?)
    decreases |shape|, 1, n
  {
    hide Flatten, Product, Rebuild;
    var k := Product(shape);
    if n == 0 {
      OneSlice(k);
    } else {
      Slices(n, k);
      var items := RebuildAll(n, shape, raw);
      assert items[1..] == RebuildAll(n - 1, shape, raw[k..]);
      RebuildIsFlattened(shape, raw[..k]);
      RebuildAllIsFlattened(n - 1, shape, raw[k..]);
      hide RebuildAll, AllRaw, FlattenAll;
      FlattenedCons(items, Pixels(shape, raw[..k]));
      assert raw == raw[..k] + raw[k..];
    }
  }

  predicate Spells(v: Json, p: Pixels) {
    Proper(p.shape) && |p.raw| == Product(p.shape) && v == Rebuild(p.shape, p.raw)
  }

  /** The accepted lists are exactly the rectangular nestings of bytes. */
  lemma AcceptsRectangles(v: Json)
    ensures Flatten(v).Ok? <==> exists p :: Spells(v, p)
  {
    if Flatten(v).Ok? {
      FlattenIsLossless(v);
      assert Spells(v, Flatten(v).value);
    }
    if p :| Spells(v, p) { RebuildIsFlattened(p.shape, p.raw); }
  }

  // ---- envelopes ----

  const MAX_IMAGE_BYTES := 20_000_000

  predicate ImageShape(shape: seq<nat>) { |shape| == 3 && shape[2] == 3 }

  function Dims(shape: seq<nat>): seq<Json> { if shape == [] then [] else [Int(shape[0])] + Dims(shape[1..]) }

  function Envelope(shape: seq<nat>, raw: seq<Byte>): Json {
    Object(map["__ndarray__" := Str(Base64.Encode(raw)), "dtype" := Str("uint8"), "shape" := Array(Dims(shape))])
  }

  /** A shape field of three positive integers, the last 3. */
  predicate ShapeField(v: Json) {
    v.Array? && |v.items| == 3 && (forall i :: i in v.items ==> i.Int? && i.n >= 1) && v.items[2].n == 3
  }

  /** The dictionary branch's checks. */
  predicate IsEnvelope(v: Json) {
    && v.Object? && v.fields.Keys == {"__ndarray__", "dtype", "shape"}
    && v.fields["dtype"] == Str("uint8") && v.fields["__ndarray__"].Str? && ShapeField(v.fields["shape"])
    && Base64.Decode(v.fields["__ndarray__"].s).Some?
    && var s, raw := v.fields["shape"].items, Base64.Decode(v.fields["__ndarray__"].s).value;
       |raw| == s[0].n * s[1].n * s[2].n && |raw| <= MAX_IMAGE_BYTES
  }

  /** `_image_envelope`. */
  function Normalise(v: Json): Result<Json> {
    if v.Array? then
      match Flatten(v)
      case Err(e) => Err(e)
      case Ok(p) =>
        if ImageShape(p.shape) && |p.raw| <= MAX_IMAGE_BYTES then Ok(Envelope(p.shape, p.raw)) else Err(Error.Value)
    else if IsEnvelope(v) then Ok(v)
    else Err(Error.Value)
  }

  /** The pixels an accepted value stands for. */
  function PixelsOf(v: Json): Result<Pixels> {
    if v.Array? then Flatten(v)
    else if IsEnvelope(v) then
      var s := v.fields["shape"].items;
      Ok(Pixels([s[0].n, s[1].n, s[2].n], Base64.Decode(v.fields["__ndarray__"].s).value))
    else Err(Error.Value)
  }

  lemma EnvelopeIsOne(p: Pixels)
    requires Proper(p.shape) && ImageShape(p.shape) && |p.raw| == Product(p.shape) && |p.raw| <= MAX_IMAGE_BYTES
    ensures IsEnvelope(Envelope(p.shape, p.raw)) && PixelsOf(Envelope(p.shape, p.raw)) == Ok(p)
  {
    Base64.DecodeEncode(p.raw);
    var s := p.shape;
    assert s == [s[0], s[1], s[2]];
    assert s[0] in s && s[1] in s && s[2] in s;
    assert Dims(s) == [Int(s[0]), Int(s[1]), Int(s[2])] by { DimsOfThree(s); }
    assert Product(s) == s[0] * s[1] * s[2] by { ProductOfThree(s); }
    var v := Envelope(s, p.raw);
    assert v.fields.Keys == {"__ndarray__", "dtype", "shape"};
    assert v.fields["shape"].items == [Int(s[0]), Int(s[1]), Int(s[2])];
  }

  lemma DimsOfThree(s: seq<nat>)
    requires |s| == 3
    ensures Dims(s) == [Int(s[0]), Int(s[1]), Int(s[2])]
  {
    var a, b := s[1..], s[1..][1..];
    assert b[1..] == [];
    assert Dims(b) == [Int(s[2])] + Dims(b[1..]);
    assert Dims(a) == [Int(s[1])] + Dims(b);
  }

  lemma ProductOfThree(s: seq<nat>)
    requires |s| == 3
    ensures Product(s) == s[0] * s[1] * s[2]
  {
    var a, b := s[1..], s[1..][1..];
    assert b[1..] == [];
    assert Product(b) == s[2] * Product(b[1..]);
    assert Product(a) == s[1] * Product(b);
    assert Product(s) == s[0] * Product(a);
    assert s[0] * (s[1] * s[2]) == s[0] * s[1] * s[2];
  }

  /** A nested list is accepted exactly if it is a rectangle of bytes, three deep with three channels and
      within the byte bound. */
  lemma NormaliseAccepts(v: Json)
    requires v.Array?
    ensures Normalise(v).Ok? <==>
            exists p :: Spells(v, p) && |p.shape| == 3 && p.shape[2] == 3 && |p.raw| <= MAX_IMAGE_BYTES
  {
    AcceptsRectangles(v);
    if Flatten(v).Ok? {
      var f := Flatten(v).value;
      FlattenIsLossless(v);
      assert Spells(v, f);
      forall p | Spells(v, p) ensures p == f { RebuildIsFlattened(p.shape, p.raw); }
    }
  }

  /** Normalising keeps the pixels, gives an envelope, and leaves envelopes alone. */
  lemma NormaliseIsIdempotent(v: Json)
    requires Normalise(v).Ok?
    ensures var n := Normalise(v).value;
            && IsEnvelope(n) && Normalise(n) == Ok(n)
            && PixelsOf(n) == PixelsOf(v) && PixelsOf(v).Ok?
  {
    if v.Array? {
      FlattenIsLossless(v);
      EnvelopeIsOne(Flatten(v).value);
    }
  }

  // ---- packets ----

  predicate StampOk(v: Json) {
    && v.Object? && v.fields.Keys == {"session", "epoch", "sequence"}
    && v.fields["session"].Str? && v.fields["session"].s != ""
    && v.fields["epoch"].Int? && v.fields["epoch"].n >= 0 && v.fields["sequence"].Int? && v.fields["sequence"].n >= 0
  }

  predicate ProprioOk(v: Json) {
    v.Array? && |v.items| == 61 && forall i :: i in v.items ==> i.Int? || (i.Float? && i.finite)
  }

  /** All checks but those of the images. */
  predicate FrameOk(v: Json) {
    && v.Object? && v.fields.Keys == {"stamp", "instruction", "proprio", "rgb"}
    && StampOk(v.fields["stamp"])
    && v.fields["instruction"].Str? && Text.Strip(v.fields["instruction"].s) != ""
    && ProprioOk(v.fields["proprio"])
    && v.fields["rgb"].Object? && v.fields["rgb"].fields.Keys == {"head", "left_wrist", "right_wrist"}
  }

  predicate ImagesOk(rgb: map<string, Json>) { forall c :: c in rgb ==> Normalise(rgb[c]).Ok? }

  /** `validate_native_packet`. */
  function ValidatePacket(v: Json): Result<Json> {
    if !FrameOk(v) then Err(Error.Value) else
    var rgb := v.fields["rgb"].fields;
    if !ImagesOk(rgb) then Err(Error.Value)
    else Ok(Object(v.fields["rgb" := Object(map c | c in rgb :: Normalise(rgb[c]).value)]))
  }

  /** An accepted packet is accepted again and comes back unchanged, as the backend and its transport
      each validating it requires; only its images changed, and those not in their pixels. */
  lemma PacketIsIdempotent(v: Json)
    requires ValidatePacket(v).Ok?
    ensures var n := ValidatePacket(v).value;
            && ValidatePacket(n) == Ok(n)
            && n.Object? && v.Object? && n.fields.Keys == v.fields.Keys
            && (forall k :: k in v.fields && k != "rgb" ==> n.fields[k] == v.fields[k])
            && FrameOk(v) && FrameOk(n)
            && forall c :: c in v.fields["rgb"].fields ==>
                 c in n.fields["rgb"].fields && PixelsOf(n.fields["rgb"].fields[c]) == PixelsOf(v.fields["rgb"].fields[c])
  {
    hide Normalise, PixelsOf, IsEnvelope, Text.Strip, StampOk, ProprioOk;
    var n := ValidatePacket(v).value;
    var rgb := v.fields["rgb"].fields;
    var done := n.fields["rgb"].fields;
    forall c | c in rgb
      ensures c in done && Normalise(done[c]) == Ok(done[c]) && PixelsOf(done[c]) == PixelsOf(rgb[c])
    {
      NormaliseIsIdempotent(rgb[c]);
    }
    assert done.Keys == rgb.Keys;
    assert n.fields.Keys == v.fields.Keys;
    assert FrameOk(n);
    assert (map c | c in done :: Normalise(done[c]).value) == done;
    assert n.fields["rgb" := Object(done)] == n.fields;
  }
}
