/** The nanoid resource (internal/provider/resource_nanoid.go): Create
    fills in the default alphabet and length and asks the generator for an
    id; Read and Update store the state they loaded; ImportState rebuilds a
    state from a bare id. Strings are sequences of characters (Go runes);
    Go's len on a string is their UTF-8 length in bytes. */
module NanoId {
  import opened Wrappers
  import opened Framework
  import opened NetHttp
  import Utf8

  const Digits: string := "0123456789"
  const UpperLetters: string := "ABCDEFGHIJKLMNOPQRSTUVWXYZ"
  const LowerLetters: string := "abcdefghijklmnopqrstuvwxyz"

  /** DEFAULT_ID_ALPHABET: the digits, the upper-case letters, '_', the
      lower-case letters and '-', in that order. */
  const DefaultAlphabet: string := Digits + UpperLetters + "_" + LowerLetters + "-"
  const DefaultLength: int := 21

  /** The longest id, in bytes, that ImportState accepts. */
  const MaxImportedLength: int := 64

  /** NanoIdResourceModel. */
  datatype NanoIdState = NanoIdState(
    id: Value<string>,
    alphabet: Value<string>,
    keepers: Value<map<string, string>>,
    length: Value<int>)

  /** gonanoid.Generate(alphabet, size), as its outcome. */
  type Generator = (string, int) -> Result<string, Error>

  /** id has n characters, each taken from the alphabet. */
  predicate Drawn(id: string, alphabet: string, n: int)
  {
    |id| == n && forall i :: 0 <= i < |id| ==> id[i] in alphabet
  }

  /** A generator that, whenever it succeeds, returns an id of the requested
      size over the given alphabet. */
  ghost predicate Sound(generate: Generator)
  {
    forall alphabet: string, n: int ::
      generate(alphabet, n).Success? ==> Drawn(generate(alphabet, n).value, alphabet, n)
  }

  /** The schema validators: an alphabet of 1 to 255 characters, as the
      attribute's description at resource_nanoid.go:59 says, and a length
      between 1 and 64; null and unknown values are not checked. */
  predicate ValidConfig(s: NanoIdState)
  {
    && (s.alphabet.Known? ==> 1 <= |s.alphabet.v| <= 255)
    && (s.length.Known? ==> 1 <= s.length.v <= 64)
  }

  /** The alphabet Create uses: the default when none is configured. */
  function ChosenAlphabet(s: NanoIdState): string
  {
    if s.alphabet.Null? then DefaultAlphabet else s.alphabet.ValueOr("")
  }

  /** The length Create uses: the default when none is configured. */
  function ChosenLength(s: NanoIdState): int
  {
    if s.length.Null? then DefaultLength else s.length.ValueOr(0)
  }

  /** The state Create stores, or the generator's error. */
  function Created(s: NanoIdState, generate: Generator): Result<NanoIdState, Error>
  {
    match generate(ChosenAlphabet(s), ChosenLength(s))
    case Failure(err) => Failure(err)
    case Success(id) => Success(s.(id := Known(id), alphabet := Known(ChosenAlphabet(s)), length := Known(ChosenLength(s))))
  }

  /** The error Create reports when the generator fails. */
  function GenerateError(err: Error): Diagnostic
  {
    ErrorDiagnostic("Failed to generate id", "Failed to generate id: " + err.message + ".")
  }

  /** Create fails exactly when the generator does; otherwise it keeps the
      keepers, stores the generated id, and writes back the alphabet and
      length it used: the configured ones, or the defaults where they are
      null. */
  lemma CreatedOutcome(s: NanoIdState, generate: Generator)
    ensures var r := Created(s, generate);
      && (r.Failure? <==> generate(ChosenAlphabet(s), ChosenLength(s)).Failure?)
      && (r.Success? ==>
            && r.value.id.Known?
            && r.value.keepers == s.keepers
            && r.value.alphabet == (if s.alphabet.Null? then Known(DefaultAlphabet) else Known(s.alphabet.ValueOr("")))
            && r.value.length == (if s.length.Null? then Known(DefaultLength) else Known(s.length.ValueOr(0))))
  {
  }

  lemma DigitsAscii()
    ensures Utf8.Ascii(Digits)
  {
  }

  lemma UpperLettersAscii()
    ensures Utf8.Ascii(UpperLetters)
  {
  }

  lemma LowerLettersAscii()
    ensures Utf8.Ascii(LowerLetters)
  {
  }

  /** The default alphabet has 64 characters, all ASCII. */
  lemma DefaultAlphabetShape()
    ensures |DefaultAlphabet| == 64
    ensures Utf8.Ascii(DefaultAlphabet)
  {
    DigitsAscii();
    UpperLettersAscii();
    LowerLettersAscii();
    Utf8.AsciiConcat(Digits, UpperLetters);
    Utf8.AsciiConcat(Digits + UpperLetters, "_");
    Utf8.AsciiConcat(Digits + UpperLetters + "_", LowerLetters);
    Utf8.AsciiConcat(Digits + UpperLetters + "_" + LowerLetters, "-");
  }

  /** No attribute is unknown, as in the configuration Create is given. */
  predicate Settled(s: NanoIdState)
  {
    !s.id.Unknown? && !s.alphabet.Unknown? && !s.keepers.Unknown? && !s.length.Unknown?
  }

  /** A valid, settled configuration hands the generator an alphabet of 1
      to 255 characters and a length between 1 and 64. */
  lemma ValidGeneratorArguments(s: NanoIdState)
    requires ValidConfig(s) && Settled(s)
    ensures 1 <= |ChosenAlphabet(s)| <= 255
    ensures 1 <= ChosenLength(s) <= 64
  {
    DefaultAlphabetShape();
  }

  /** With a sound generator, the id Create stores has exactly the chosen
      length, in characters, over the chosen alphabet. */
  lemma CreatedId(s: NanoIdState, generate: Generator)
    requires Sound(generate)
    requires Created(s, generate).Success?
    ensures var c := Created(s, generate).value;
      && Drawn(c.id.v, ChosenAlphabet(s), ChosenLength(s))
      && c.length == Known(|c.id.v|)
  {
    var alphabet, n := ChosenAlphabet(s), ChosenLength(s);
    assert generate(alphabet, n).Success?;
    assert Drawn(generate(alphabet, n).value, alphabet, n);
  }

  /** An empty configuration gives an id of 21 characters over the default
      alphabet, and records both defaults. */
  lemma EmptyConfigGivesTwentyOne(generate: Generator)
    requires Sound(generate)
    requires Created(NanoIdState(Null, Null, Null, Null), generate).Success?
    ensures var c := Created(NanoIdState(Null, Null, Null, Null), generate).value;
      && c.length == Known(21)
      && c.alphabet == Known(DefaultAlphabet)
      && |c.id.v| == 21
  {
    CreatedId(NanoIdState(Null, Null, Null, Null), generate);
  }

  /** length = 11 gives an id of 11 characters over the default alphabet. */
  lemma LengthElevenGivesEleven(generate: Generator)
    requires Sound(generate)
    requires Created(NanoIdState(Null, Null, Null, Known(11)), generate).Success?
    ensures var c := Created(NanoIdState(Null, Null, Null, Known(11)), generate).value;
      && c.length == Known(11)
      && c.alphabet == Known(DefaultAlphabet)
      && |c.id.v| == 11
  {
    CreatedId(NanoIdState(Null, Null, Null, Known(11)), generate);
  }

  /** Create: load the configuration, use the defaults where the alphabet
      or the length is null, generate the id and store the state. */
  method Create(config: Loaded<NanoIdState>, generate: Generator, stored: seq<Diagnostic>,
                response: ResourceResponse<NanoIdState>)
    modifies response, response.diagnostics
    ensures var d0 := old(response.diagnostics.items) + config.diags;
      if HasError(d0) then
        response.diagnostics.items == d0 && response.state == old(response.state)
      else
        match Created(config.value, generate)
        case Failure(err) =>
          response.diagnostics.items == d0 + [GenerateError(err)] && response.state == old(response.state)
        case Success(c) =>
          response.diagnostics.items == d0 + stored && response.state == Some(c)
  {
    response.diagnostics.Append(config.diags);
    if HasError(response.diagnostics.items) {
      return;
    }
    var data := config.value;

    var alphabet := data.alphabet.ValueOr("");
    if data.alphabet.Null? {
      alphabet := DefaultAlphabet;
    }

    var length := data.length.ValueOr(0);
    if data.length.Null? {
      length := DefaultLength;
    }

    var generated := generate(alphabet, length);
    if generated.Failure? {
      response.diagnostics.AddError("Failed to generate id", "Failed to generate id: " + generated.error.message + ".");
      return;
    }

    data := data.(id := Known(generated.value), alphabet := Known(alphabet), length := Known(length));
    response.state := Some(data);
    response.diagnostics.Append(stored);
  }

  /** Read: the prior state is stored again as it was loaded. */
  method Read(prior: Loaded<NanoIdState>, stored: seq<Diagnostic>, response: ResourceResponse<NanoIdState>)
    modifies response, response.diagnostics
    ensures var d0 := old(response.diagnostics.items) + prior.diags;
      if HasError(d0) then response.diagnostics.items == d0 && response.state == old(response.state)
      else response.diagnostics.items == d0 + stored && response.state == Some(prior.value)
  {
    response.diagnostics.Append(prior.diags);
    if HasError(response.diagnostics.items) {
      return;
    }
    response.state := Some(prior.value);
    response.diagnostics.Append(stored);
  }

  /** Update: the same steps as Read, so nothing is regenerated. */
  method Update(prior: Loaded<NanoIdState>, stored: seq<Diagnostic>, response: ResourceResponse<NanoIdState>)
    modifies response, response.diagnostics
    ensures var d0 := old(response.diagnostics.items) + prior.diags;
      if HasError(d0) then response.diagnostics.items == d0 && response.state == old(response.state)
      else response.diagnostics.items == d0 + stored && response.state == Some(prior.value)
  {
    Read(prior, stored, response);
  }

  /** Delete: only the diagnostics of loading the prior state. */
  method Delete(prior: Loaded<NanoIdState>, response: ResourceResponse<NanoIdState>)
    modifies response.diagnostics
    ensures response.diagnostics.items == old(response.diagnostics.items) + prior.diags
  {
    response.diagnostics.Append(prior.diags);
  }

  /** The state ImportState rebuilds from an id, or None when the id is
      longer than 64 bytes: the id itself, its length in bytes, no keepers
      and the default alphabet. */
  function Imported(id: string): Option<NanoIdState>
  {
    if Utf8.Length(id) > MaxImportedLength then None
    else Some(NanoIdState(Known(id), Known(DefaultAlphabet), Null, Known(Utf8.Length(id))))
  }

  /** An id is accepted exactly when it takes at most 64 bytes; the state
      then holds it, with its byte length, the default alphabet and no
      keepers. An ASCII id's length is its number of characters. */
  lemma ImportedOutcome(id: string)
    ensures Imported(id).Some? <==> Utf8.Length(id) <= 64
    ensures Imported(id).Some? ==>
      && Imported(id).value.id == Known(id)
      && Imported(id).value.alphabet == Known(DefaultAlphabet)
      && Imported(id).value.keepers.Null?
      && Imported(id).value.length.Known? && 0 <= Imported(id).value.length.v <= 64
    ensures Utf8.Ascii(id) && |id| <= 64 ==> Imported(id).Some? && Imported(id).value.length == Known(|id|)
  {
    if Utf8.Ascii(id) {
      Utf8.AsciiLength(id);
    }
  }

  /** ImportState of an id created with the default alphabet and a valid
      length gives back the created state, except that the keepers are
      null. */
  lemma ImportRoundTrip(s: NanoIdState, generate: Generator)
    requires Sound(generate)
    requires ValidConfig(s) && Settled(s) && ChosenAlphabet(s) == DefaultAlphabet
    requires Created(s, generate).Success?
    ensures var c := Created(s, generate).value;
      Imported(c.id.v) == Some(c.(keepers := Null))
  {
    var c := Created(s, generate).value;
    var id := c.id.v;
    CreatedId(s, generate);
    ValidGeneratorArguments(s);
    DefaultAlphabetShape();
    assert Utf8.Ascii(id) by {
      forall i | 0 <= i < |id|
        ensures id[i] as int < 0x80
      {
        var j :| 0 <= j < |DefaultAlphabet| && DefaultAlphabet[j] == id[i];
      }
    }
    Utf8.AsciiLength(id);
  }

  /** An id over a non-ASCII alphabet takes more bytes than characters, so
      ImportState records a length that differs from the one it was
      created with: "éé", created with length 2, comes back with length 4. */
  lemma NonAsciiImportLength()
    ensures Imported("éé") == Some(NanoIdState(Known("éé"), Known(DefaultAlphabet), Null, Known(4)))
  {
    assert Utf8.Length("éé") == 4 by {
      assert "éé"[1..] == "é";
      assert "é"[1..] == "";
    }
  }

  /** ImportState: reject an id longer than 64 bytes, otherwise store the
      state rebuilt from it. */
  method ImportState(id: string, stored: seq<Diagnostic>, response: ResourceResponse<NanoIdState>)
    modifies response, response.diagnostics
    ensures match Imported(id)
      case None =>
        && response.diagnostics.items
           == old(response.diagnostics.items) + [ErrorDiagnostic("Invalid id", "The id must be at most 64 characters long.")]
        && response.state == old(response.state)
      case Some(state) =>
        response.diagnostics.items == old(response.diagnostics.items) + stored && response.state == Some(state)
  {
    var length := Utf8.Length(id);
    if length > MaxImportedLength {
      response.diagnostics.AddError("Invalid id", "The id must be at most 64 characters long.");
      return;
    }
    var state := NanoIdState(Known(id), Known(DefaultAlphabet), Null, Known(length));
    response.state := Some(state);
    response.diagnostics.Append(stored);
  }
}
