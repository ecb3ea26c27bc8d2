/**
 * Saving and loading a network: a header naming the file's posit format
 * (`nbits`, then `es`, each as a `size_t`), then the object's weights as
 * its `write` emits them. Loading refuses a file whose header names
 * another format. Whether the file can be opened is a parameter: the
 * file system is not modelled.
 */
module SaveLoad {
  import opened Wrappers
  import opened Serial
  import opened Tensors
  import opened Mixed
  import opened Layers

  /** The header `save` writes for the file's format. */
  function HeaderBytes(codec: PositCodec): seq<Byte>
  {
    SizeBytes(codec.nbits) + SizeBytes(codec.es)
  }

  /** The whole file `save` writes for the tensors `ts`. */
  function FileBytes(codec: PositCodec, ts: seq<TensorImage>): seq<Byte>
    requires codec.WellFormed()
  {
    HeaderBytes(codec) + ImagesBytes(codec, ts)
  }

  /**
   * What `load` makes of a stream for an object with `n` weights: the
   * header's two sizes, then, when they are the expected format's, the
   * `n` tensors that follow.
   */
  function LoadOf(c: Cursor, codec: PositCodec, n: nat): Result<(seq<TensorImage>, Cursor), string>
    requires c.Valid()
  {
    var (nbits, c1) := ReadSizeOf(c);
    var (es, c2) := ReadSizeOf(c1);
    if nbits != codec.nbits || es != codec.es then Failure("posits have different sizes")
    else Success(ReadImagesOf(c2, codec, n))
  }

  /** A well-formed header is read back as the format it names. */
  lemma ReadHeader(c: Cursor, codec: PositCodec, rest: seq<Byte>)
    requires c.Valid() && c.Next(HeaderBytes(codec) + rest)
    requires codec.nbits < SizeLimit && codec.es < SizeLimit
    ensures ReadSizeOf(c) == (codec.nbits, c.Advance(SizeWidth))
    ensures ReadSizeOf(c.Advance(SizeWidth)) == (codec.es, c.Advance(2 * SizeWidth))
    ensures c.Advance(2 * SizeWidth).Next(rest)
  {
    var a, b := SizeBytes(codec.nbits), SizeBytes(codec.es);
    AppendAssoc(a, b, rest);
    NextSplit(c, a, b + rest);
    ReadSizeRoundTrip(c, codec.nbits);
    NextSplit(c.Advance(SizeWidth), b, rest);
    ReadSizeRoundTrip(c.Advance(SizeWidth), codec.es);
  }

  /**
   * Loading a saved file in the format it was saved in gives back every
   * tensor with its stored entries and consumes the whole file.
   */
  lemma LoadSaved(codec: PositCodec, ts: seq<TensorImage>)
    requires codec.WellFormed() && codec.nbits < SizeLimit && codec.es < SizeLimit
    requires forall i :: 0 <= i < |ts| ==> ts[i].Fits()
    ensures var file := FileBytes(codec, ts);
      LoadOf(Cursor(file, 0, true), codec, |ts|) == Success((StoredImages(codec, ts), Cursor(file, |file|, true)))
  {
    var file := FileBytes(codec, ts);
    var c := Cursor(file, 0, true);
    assert c.Next(HeaderBytes(codec) + ImagesBytes(codec, ts));
    ReadHeader(c, codec, ImagesBytes(codec, ts));
    var c2 := c.Advance(2 * SizeWidth);
    ReadImagesRoundTrip(c2, codec, ts);
    assert ReadImagesOf(c2, codec, |ts|) == (StoredImages(codec, ts), c2.Advance(|ImagesBytes(codec, ts)|));
    assert c2.Advance(|ImagesBytes(codec, ts)|) == Cursor(file, |file|, true);
  }

  /**
   * Loading a file saved in one format as another format fails, whatever
   * the file holds after its header.
   */
  lemma LoadOtherFormat(saved: PositCodec, expected: PositCodec, rest: seq<Byte>, n: nat)
    requires saved.nbits < SizeLimit && saved.es < SizeLimit
    requires saved.nbits != expected.nbits || saved.es != expected.es
    ensures LoadOf(Cursor(HeaderBytes(saved) + rest, 0, true), expected, n) == Failure("posits have different sizes")
  {
    var c := Cursor(HeaderBytes(saved) + rest, 0, true);
    assert c.Next(HeaderBytes(saved) + rest);
    ReadHeader(c, saved, rest);
  }

  /**
   * `save(object, filename)` of the layer `net`: -1 when the file cannot
   * be opened, and then nothing is written; otherwise the header and the
   * weights of `net`, and 0.
   */
  method Save(net: Layer, codec: PositCodec, canOpen: bool) returns (status: int, file: Sink?)
    requires codec.WellFormed()
    ensures !canOpen ==> status == -1 && file == null
    ensures canOpen ==> status == 0 && file != null && file.bytes == FileBytes(codec, WeightImages(net.parameters))
  {
    if !canOpen {
      return -1, null;
    }
    file := WriteFile(net, codec);
    status := 0;
  }

  /** The writes of `save` once the file is open: the header, then the weights of `net`. */
  method WriteFile(net: Layer, codec: PositCodec) returns (file: Sink)
    requires codec.WellFormed()
    ensures file.bytes == FileBytes(codec, WeightImages(net.parameters))
  {
    file := new Sink();
    WriteSize(file, codec.nbits);
    WriteSize(file, codec.es);
    assert file.bytes == HeaderBytes(codec);
    net.Write(file, codec);
  }

  /**
   * `load(object, filename)` into the layer `net`: -1 when the file cannot
   * be opened (`null`), and `net` is untouched; the `invalid_argument`
   * error when the header names another format, and `net` is untouched;
   * otherwise the weights of `net` are read in registration order, and 0.
   */
  method Load(net: Layer, file: Source?, codec: PositCodec) returns (r: Result<int, string>)
    requires codec.WellFormed() && (file != null ==> file.State().Valid())
    modifies Weights(net.parameters), file
    ensures file == null ==> r == Success(-1) && unchanged(Weights(net.parameters))
    ensures file != null ==> match LoadOf(old(file.State()), codec, |net.parameters|)
      case Failure(e) => r == Failure(e) && unchanged(Weights(net.parameters))
      case Success(loaded) =>
        r == Success(0) && file.State() == loaded.1 &&
        forall k :: 0 <= k < |net.parameters| && LastRegistration(net.parameters, k, |net.parameters|) ==>
          net.parameters[k].weight.Image() == loaded.0[k]
  {
    if file == null {
      return Success(-1);
    }
    var nbits := ReadSize(file);
    var es := ReadSize(file);
    if nbits != codec.nbits || es != codec.es {
      return Failure("posits have different sizes");
    }
    net.Read(file, codec);
    r := Success(0);
  }
}
