/**
 * The Matrix Market reader: the header line, comment lines, the size line and the
 * coordinate entries of the NIST Matrix Market exchange format ("The Matrix Market
 * Exchange Formats: Initial Design", NISTIR 5935), and the graph built from them.
 *
 * The pure functions (Parse, ReadMtx and their parts) say what a parse yields; the
 * classes MatrixMarket and MatrixMarketReader do it the way the program does, field
 * by field and line by line, and are proved to agree with them.
 */
module Mtx {
  import opened Wrappers
  import opened Text
  import opened Graphs

  datatype Format = Coordinate | Array
  datatype Field = Real | Integer | Complex | Pattern
  datatype Symmetry = General | Symmetric | SkewSymmetric | Hermitian

  const MMID: string := "%%MatrixMarket"
  const MATRIX: string := "matrix"

  function FormatKeyword(f: Format): string {
    match f
    case Coordinate => "coordinate"
    case Array => "array"
  }

  function FieldKeyword(f: Field): string {
    match f
    case Real => "real"
    case Integer => "integer"
    case Complex => "complex"
    case Pattern => "pattern"
  }

  /** The Hermitian keyword is written with a capital H, the others in lower case. */
  function SymmetryKeyword(s: Symmetry): string {
    match s
    case General => "general"
    case Symmetric => "symmetric"
    case SkewSymmetric => "skew-symmetric"
    case Hermitian => "Hermitian"
  }

  /** Exact, case-sensitive keyword lookup: the token is the keyword of the result, and of nothing else. */
  function ParseFormat(t: string): (r: Option<Format>)
    ensures r.Some? ==> FormatKeyword(r.value) == t
    ensures forall f :: FormatKeyword(f) == t ==> r == Some(f)
  {
    if t == "coordinate" then Some(Coordinate)
    else if t == "array" then Some(Array)
    else None
  }

  function ParseField(t: string): (r: Option<Field>)
    ensures r.Some? ==> FieldKeyword(r.value) == t
    ensures forall f :: FieldKeyword(f) == t ==> r == Some(f)
  {
    if t == "real" then Some(Real)
    else if t == "integer" then Some(Integer)
    else if t == "complex" then Some(Complex)
    else if t == "pattern" then Some(Pattern)
    else None
  }

  function ParseSymmetry(t: string): (r: Option<Symmetry>)
    ensures r.Some? ==> SymmetryKeyword(r.value) == t
    ensures forall s :: SymmetryKeyword(s) == t ==> r == Some(s)
  {
    if t == "general" then Some(General)
    else if t == "symmetric" then Some(Symmetric)
    else if t == "skew-symmetric" then Some(SkewSymmetric)
    else if t == "Hermitian" then Some(Hermitian)
    else None
  }

  /** The three Python exception classes the reader raises. */
  datatype PyException = ValueError | IndexError | NotImplementedError

  datatype MtxError =
    | NoLine                            // a line index past the end of the input
    | HeaderArity(parts: nat)           // the header does not unpack into five names
    | NotMatrixMarket                   // first token is not %%MatrixMarket
    | BadHeader(line: string)           // second token is not `matrix`
    | InvalidFormat(token: string)
    | InvalidField(token: string)
    | InvalidSymmetry(token: string)
    | InvalidHeader(header: string)     // a (format, field, symmetry) combination not allowed
    | DimensionArity(expected: nat)     // size line of the wrong length
    | NotAnInteger(token: string)
    | NotAFloat(token: string)
    | MissingEntries(missing: int)
    | EntryArity(expected: nat, actual: nat)
    | InvalidFieldType                  // field type of a field that was never set
    | NotImplemented                    // array storage
  {
    function Kind(): PyException {
      match this
      case NoLine => IndexError
      case NotImplemented => NotImplementedError
      case _ => ValueError
    }
  }

  datatype Header = Header(mmid: string, matrix: string, format: Format, field: Field, symmetry: Symmetry)

  function HeaderTokens(h: Header): seq<string> {
    [h.mmid, h.matrix, FormatKeyword(h.format), FieldKeyword(h.field), SymmetryKeyword(h.symmetry)]
  }

  /** The three families of (format, field, symmetry) combinations the reader allows. */
  predicate HeaderAllowed(format: Format, field: Field, symmetry: Symmetry) {
    || (field in {Real, Integer, Complex} && symmetry in {General, Symmetric, SkewSymmetric})
    || (field == Complex && symmetry == Hermitian)
    || (format == Coordinate && field == Pattern && symmetry in {General, Symmetric})
  }

  /** Every allowed combination, listed one by one. */
  function AllowedCombinations(): set<(Format, Field, Symmetry)> {
    {
      (Coordinate, Real, General), (Coordinate, Real, Symmetric), (Coordinate, Real, SkewSymmetric),
      (Coordinate, Integer, General), (Coordinate, Integer, Symmetric), (Coordinate, Integer, SkewSymmetric),
      (Coordinate, Complex, General), (Coordinate, Complex, Symmetric), (Coordinate, Complex, SkewSymmetric),
      (Array, Real, General), (Array, Real, Symmetric), (Array, Real, SkewSymmetric),
      (Array, Integer, General), (Array, Integer, Symmetric), (Array, Integer, SkewSymmetric),
      (Array, Complex, General), (Array, Complex, Symmetric), (Array, Complex, SkewSymmetric),
      (Coordinate, Complex, Hermitian), (Array, Complex, Hermitian),
      (Coordinate, Pattern, General), (Coordinate, Pattern, Symmetric)
    }
  }

  /** The three clauses admit exactly the 22 listed combinations. */
  lemma AllowedExactly(format: Format, field: Field, symmetry: Symmetry)
    ensures HeaderAllowed(format, field, symmetry) <==> (format, field, symmetry) in AllowedCombinations()
  {
    match format {
      case Coordinate =>
        match field {
          case Real => case Integer => case Complex => case Pattern =>
        }
      case Array =>
        match field {
          case Real => case Integer => case Complex => case Pattern =>
        }
    }
  }

  /**
   * `validate_header`: passes exactly for the 22 listed combinations; otherwise it
   * fails with the five header tokens joined by spaces.
   */
  function ValidateHeader(h: Header): (r: Outcome<MtxError>)
    ensures r.Pass? <==> (h.format, h.field, h.symmetry) in AllowedCombinations()
    ensures r.Fail? ==> r.error == InvalidHeader(Join(HeaderTokens(h))) && r.error.Kind() == ValueError
  {
    AllowedExactly(h.format, h.field, h.symmetry);
    if HeaderAllowed(h.format, h.field, h.symmetry) then Pass
    else Fail(InvalidHeader(Join(HeaderTokens(h))))
  }

  /** What the allow-list implies: Hermitian only with complex values, pattern only in coordinate form and never skew or Hermitian. */
  lemma AllowedConsequences(format: Format, field: Field, symmetry: Symmetry)
    requires HeaderAllowed(format, field, symmetry)
    ensures symmetry == Hermitian ==> field == Complex
    ensures field == Pattern ==> format == Coordinate && symmetry in {General, Symmetric}
    ensures format == Array ==> field != Pattern
  {
  }

  /**
   * The header line: exactly five tokens, checked in the order magic token,
   * object, format, field, symmetry, then the combination.
   */
  function ParseHeaderLine(line: string): (r: Result<Header, MtxError>)
    ensures r.Success? ==> Split(line) == HeaderTokens(r.value)
    ensures r.Success? ==> r.value.mmid == MMID && r.value.matrix == MATRIX
    ensures r.Success? ==> HeaderAllowed(r.value.format, r.value.field, r.value.symmetry)
    ensures r.Failure? ==> r.error.Kind() == ValueError
  {
    var ts := Split(line);
    if |ts| != 5 then Failure(HeaderArity(|ts|))
    else if ts[0] != MMID then Failure(NotMatrixMarket)
    else if ts[1] != MATRIX then Failure(BadHeader(line))
    else if ParseFormat(ts[2]).None? then Failure(InvalidFormat(ts[2]))
    else if ParseField(ts[3]).None? then Failure(InvalidField(ts[3]))
    else if ParseSymmetry(ts[4]).None? then Failure(InvalidSymmetry(ts[4]))
    else
      var h := Header(ts[0], ts[1], ParseFormat(ts[2]).value, ParseField(ts[3]).value, ParseSymmetry(ts[4]).value);
      match ValidateHeader(h)
      case Fail(e) => Failure(e)
      case Pass => Success(h)
  }

  /** The checks run in order: the error names the first token that is wrong, all earlier ones being right. */
  lemma HeaderCheckOrder(line: string)
    ensures var ts := Split(line);
      |ts| != 5 <==> ParseHeaderLine(line) == Failure(HeaderArity(|ts|))
    ensures var ts := Split(line);
      |ts| == 5 && ts[0] != MMID ==> ParseHeaderLine(line) == Failure(NotMatrixMarket)
    ensures var ts := Split(line);
      |ts| == 5 && ts[0] == MMID && ts[1] != MATRIX ==> ParseHeaderLine(line) == Failure(BadHeader(line))
    ensures var ts := Split(line);
      |ts| == 5 && ts[0] == MMID && ts[1] == MATRIX && ParseFormat(ts[2]).None? ==>
        ParseHeaderLine(line) == Failure(InvalidFormat(ts[2]))
    ensures var ts := Split(line);
      |ts| == 5 && ts[0] == MMID && ts[1] == MATRIX && ParseFormat(ts[2]).Some? && ParseField(ts[3]).None? ==>
        ParseHeaderLine(line) == Failure(InvalidField(ts[3]))
    ensures var ts := Split(line);
      |ts| == 5 && ts[0] == MMID && ts[1] == MATRIX && ParseFormat(ts[2]).Some? && ParseField(ts[3]).Some?
      && ParseSymmetry(ts[4]).None? ==>
        ParseHeaderLine(line) == Failure(InvalidSymmetry(ts[4]))
  {
  }

  predicate KeywordChar(c: char) {
    ('a' <= c <= 'z') || ('A' <= c <= 'Z') || c == '-' || c == '%'
  }

  lemma KeywordIsToken(t: string)
    requires |t| > 0 && forall i :: 0 <= i < |t| ==> KeywordChar(t[i])
    ensures IsToken(t)
  {
  }

  lemma FormatKeywordIsToken(f: Format)
    ensures IsToken(FormatKeyword(f))
  {
    match f
    case Coordinate => KeywordIsToken("coordinate");
    case Array => KeywordIsToken("array");
  }

  lemma FieldKeywordIsToken(f: Field)
    ensures IsToken(FieldKeyword(f))
  {
    match f
    case Real => KeywordIsToken("real");
    case Integer => KeywordIsToken("integer");
    case Complex => KeywordIsToken("complex");
    case Pattern => KeywordIsToken("pattern");
  }

  lemma SymmetryKeywordIsToken(s: Symmetry)
    ensures IsToken(SymmetryKeyword(s))
  {
    match s
    case General => KeywordIsToken("general");
    case Symmetric => KeywordIsToken("symmetric");
    case SkewSymmetric => KeywordIsToken("skew-symmetric");
    case Hermitian => KeywordIsToken("Hermitian");
  }

  /** Every header keyword survives `split()` as a single token. */
  lemma HeaderTokensAreTokens(h: Header)
    requires h.mmid == MMID && h.matrix == MATRIX
    ensures forall i :: 0 <= i < |HeaderTokens(h)| ==> IsToken(HeaderTokens(h)[i])
  {
    KeywordIsToken(MMID);
    KeywordIsToken(MATRIX);
    FormatKeywordIsToken(h.format);
    FieldKeywordIsToken(h.field);
    SymmetryKeywordIsToken(h.symmetry);
  }

  /** Writing a valid header out and reading it back gives the same header. */
  lemma HeaderRoundTrip(h: Header)
    requires h.mmid == MMID && h.matrix == MATRIX
    requires HeaderAllowed(h.format, h.field, h.symmetry)
    ensures ParseHeaderLine(Join(HeaderTokens(h))) == Success(h)
  {
    var ts := HeaderTokens(h);
    HeaderTokensAreTokens(h);
    SplitJoin(ts);
    var line := Join(ts);
    assert Split(line) == ts;
    assert ParseFormat(ts[2]) == Some(h.format);
    assert ParseField(ts[3]) == Some(h.field);
    assert ParseSymmetry(ts[4]) == Some(h.symmetry);
  }

  /** The index of the first line at or after `i` that does not start with '%', if any. */
  function FirstNonComment(lines: seq<string>, i: nat): (r: Option<nat>)
    ensures r.Some? ==> i <= r.value < |lines| && !StartsWith(lines[r.value], "%")
    ensures forall j :: i <= j < |lines| && (r.None? || j < r.value) ==> StartsWith(lines[j], "%")
    decreases |lines| - i
  {
    if i >= |lines| then None
    else if !StartsWith(lines[i], "%") then Some(i)
    else FirstNonComment(lines, i + 1)
  }

  datatype Dims = Dims(rows: int, columns: int, entries: int)

  /**
   * The size line: coordinate storage needs exactly three integers (rows, columns,
   * entries), array storage exactly two, with rows times columns entries.
   */
  function ParseDimensions(format: Format, line: string, dec: Decoders): (r: Result<Dims, MtxError>)
    ensures var ts := Split(line);
      && (format == Coordinate && |ts| != 3 ==> r == Failure(DimensionArity(3)))
      && (format == Array && |ts| != 2 ==> r == Failure(DimensionArity(2)))
      && (r.Success? && format == Coordinate ==>
            |ts| == 3 && dec.toInt(ts[0]) == Some(r.value.rows) && dec.toInt(ts[1]) == Some(r.value.columns)
            && dec.toInt(ts[2]) == Some(r.value.entries))
      && (r.Success? && format == Array ==>
            |ts| == 2 && dec.toInt(ts[0]) == Some(r.value.rows) && dec.toInt(ts[1]) == Some(r.value.columns)
            && r.value.entries == r.value.rows * r.value.columns)
    ensures r.Failure? ==> r.error.Kind() == ValueError
  {
    var ts := Split(line);
    match format
    case Array =>
      if |ts| != 2 then Failure(DimensionArity(2))
      else
        (match IntTokens(ts, dec)
         case Failure(t) => Failure(NotAnInteger(t))
         case Success(ns) => Success(Dims(ns[0], ns[1], ns[0] * ns[1])))
    case Coordinate =>
      if |ts| != 3 then Failure(DimensionArity(3))
      else
        match IntTokens(ts, dec)
        case Failure(t) => Failure(NotAnInteger(t))
        case Success(ns) => Success(Dims(ns[0], ns[1], ns[2]))
  }

  /** The Python type `field_type` returns. */
  datatype ValueType = IntType | FloatType | ComplexType | BoolType

  /** `field_type`: a fixed type per field; a field never set has none. */
  function FieldType(field: Option<Field>): (r: Result<ValueType, MtxError>)
    ensures r.Failure? <==> field.None?
    ensures r.Failure? ==> r.error == InvalidFieldType && r.error.Kind() == ValueError
    ensures field == Some(Integer) <==> r == Success(IntType)
    ensures field == Some(Real) <==> r == Success(FloatType)
    ensures field == Some(Complex) <==> r == Success(ComplexType)
    ensures field == Some(Pattern) <==> r == Success(BoolType)
  {
    match field
    case Some(Integer) => Success(IntType)
    case Some(Real) => Success(FloatType)
    case Some(Complex) => Success(ComplexType)
    case Some(Pattern) => Success(BoolType)
    case None => Failure(InvalidFieldType)
  }

  /** Tokens an entry line must have: row and column, plus one value token, or two for a complex value. */
  function ExpectedItems(t: ValueType): nat {
    match t
    case BoolType => 2
    case IntType => 3
    case FloatType => 3
    case ComplexType => 4
  }

  /** `validate_entry_items`: passes exactly when the count matches, else reports expected and actual. */
  function ValidateEntryItems(items: seq<string>, expected: nat): (r: Outcome<MtxError>)
    ensures r.Pass? <==> |items| == expected
    ensures r.Fail? ==> r.error == EntryArity(expected, |items|)
  {
    if |items| != expected then Fail(EntryArity(expected, |items|)) else Pass
  }

  /** One coordinate entry: 1-based row and column as written, and the decoded value. */
  datatype Entry = Entry(row: int, col: int, value: Value)

  /** Does the value have the shape `field_type` names? */
  predicate ValueOfType(v: Value, t: ValueType) {
    match t
    case BoolType => v == Flag(true)
    case IntType => v.IntValue?
    case FloatType => v.FloatValue?
    case ComplexType => v.ComplexValue?
  }

  /** Every token of an entry line decodes: row and column with `int`, the value tokens as its type needs. */
  predicate TokensDecode(t: ValueType, items: seq<string>, dec: Decoders)
    requires |items| == ExpectedItems(t)
  {
    && dec.toInt(items[0]).Some? && dec.toInt(items[1]).Some?
    && match t
       case BoolType => true
       case IntType => dec.toInt(items[2]).Some?
       case FloatType => dec.toFloat(items[2]).Some?
       case ComplexType => dec.toFloat(items[2]).Some? && dec.toFloat(items[3]).Some?
  }

  /**
   * `e` is the entry the tokens denote: `int` of the first two as row and column, and
   * `True`, `int(items[2])`, `float(items[2])` or `complex(float(items[2]), float(items[3]))`.
   */
  predicate EntryOf(t: ValueType, items: seq<string>, dec: Decoders, e: Entry)
    requires |items| == ExpectedItems(t)
  {
    && dec.toInt(items[0]) == Some(e.row) && dec.toInt(items[1]) == Some(e.col)
    && match t
       case BoolType => e.value == Flag(true)
       case IntType => e.value.IntValue? && dec.toInt(items[2]) == Some(e.value.i)
       case FloatType => e.value.FloatValue? && dec.toFloat(items[2]) == Some(e.value.r)
       case ComplexType =>
         e.value.ComplexValue? && dec.toFloat(items[2]) == Some(e.value.re) && dec.toFloat(items[3]) == Some(e.value.im)
  }

  /** Decodes the tokens of one entry line, left to right: row, column, then the value. */
  function DecodeItems(t: ValueType, items: seq<string>, dec: Decoders): (r: Result<Entry, MtxError>)
    requires |items| == ExpectedItems(t)
    ensures r.Success? <==> TokensDecode(t, items, dec)
    ensures r.Success? ==> EntryOf(t, items, dec, r.value)
    ensures r.Success? ==> ValueOfType(r.value.value, t)
    ensures r.Failure? ==> r.error.Kind() == ValueError
  {
    var row :- IntToken(items[0], dec);
    var col :- IntToken(items[1], dec);
    match t
    case BoolType => Success(Entry(row, col, Flag(true)))
    case IntType =>
      var v :- IntToken(items[2], dec);
      Success(Entry(row, col, IntValue(v)))
    case FloatType =>
      var v :- FloatToken(items[2], dec);
      Success(Entry(row, col, FloatValue(v)))
    case ComplexType =>
      var re :- FloatToken(items[2], dec);
      var im :- FloatToken(items[3], dec);
      Success(Entry(row, col, ComplexValue(re, im)))
  }

  function IntToken(t: string, dec: Decoders): (r: Result<int, MtxError>)
    ensures r.Success? <==> dec.toInt(t).Some?
    ensures r.Success? ==> dec.toInt(t) == Some(r.value)
    ensures r.Failure? ==> r.error == NotAnInteger(t)
  {
    match dec.toInt(t)
    case Some(n) => Success(n)
    case None => Failure(NotAnInteger(t))
  }

  function FloatToken(t: string, dec: Decoders): (r: Result<real, MtxError>)
    ensures r.Success? <==> dec.toFloat(t).Some?
    ensures r.Success? ==> dec.toFloat(t) == Some(r.value)
    ensures r.Failure? ==> r.error == NotAFloat(t)
  {
    match dec.toFloat(t)
    case Some(x) => Success(x)
    case None => Failure(NotAFloat(t))
  }

  /**
   * `process_line` on a reader whose format and field are `format` and `field`:
   * coordinate lines are decoded with the token count of their field type, array
   * lines are not implemented.
   */
  function DecodeEntry(format: Option<Format>, field: Option<Field>, line: string, dec: Decoders): (r: Result<Entry, MtxError>)
    ensures format == Some(Array) ==> r == Failure(NotImplemented)
    ensures format == Some(Coordinate) && field.Some? ==>
      var t := FieldType(field).value;
      && (|Split(line)| != ExpectedItems(t) ==> r == Failure(EntryArity(ExpectedItems(t), |Split(line)|)))
      && (r.Success? ==> |Split(line)| == ExpectedItems(t) && ValueOfType(r.value.value, t))
    ensures r.Success? ==> format == Some(Coordinate) && field.Some?
  {
    var items := Split(line);
    match format
    case Some(Coordinate) =>
      var t :- FieldType(field);
      if |items| != ExpectedItems(t) then Failure(ValidateEntryItems(items, ExpectedItems(t)).error)
      else DecodeItems(t, items, dec)
    case Some(Array) => Failure(NotImplemented)
    case None => Failure(InvalidFormat("None"))
  }

  /**
   * A coordinate line with the token count of its field type decodes exactly when all
   * its tokens do, into the entry they denote; an unset field or format fails with
   * the ValueError `field_type` or the format check raises.
   */
  lemma DecodeEntryTokens(format: Option<Format>, field: Option<Field>, line: string, dec: Decoders)
    ensures format == Some(Coordinate) && field.Some? && |Split(line)| == ExpectedItems(FieldType(field).value) ==>
      var t, r := FieldType(field).value, DecodeEntry(format, field, line, dec);
      && (r.Success? <==> TokensDecode(t, Split(line), dec))
      && (r.Success? ==> EntryOf(t, Split(line), dec, r.value))
    ensures format == Some(Coordinate) && field.None? ==> DecodeEntry(format, field, line, dec) == Failure(InvalidFieldType)
    ensures format.None? ==> DecodeEntry(format, field, line, dec) == Failure(InvalidFormat("None"))
  {
  }

  /**
   * The data loop over line indices `first .. upto - 1`: every line is decoded in
   * order; an index past the end of the input stops the loop with the count
   * `lenExpected - index - 1` the program reports.
   */
  function DecodeEntries(lines: seq<string>, first: nat, upto: int, lenExpected: int,
                         format: Option<Format>, field: Option<Field>, dec: Decoders): (r: Result<seq<Entry>, MtxError>)
    ensures r.Success? ==> |r.value| == (if upto <= first then 0 else upto - first)
    ensures r.Success? && first < upto ==> upto <= |lines|
    decreases upto - first
  {
    if upto <= first then Success([])
    else
      var cs :- DecodeEntries(lines, first, upto - 1, lenExpected, format, field, dec);
      var k := upto - 1;
      if k >= |lines| then Failure(MissingEntries(lenExpected - k - 1))
      else
        var c :- DecodeEntry(format, field, lines[k], dec);
        Success(cs + [c])
  }

  /** What a successful parse leaves in the reader: header, sizes and entries in file order. */
  datatype MatrixData = MatrixData(header: Header, dims: Dims, dimLine: nat, coordinates: seq<Entry>)

  /**
   * The preamble of `parse_lines`: the header line, then the comment lines; yields
   * the header and the index of the size line.
   */
  function Preamble(lines: seq<string>): (r: Result<(Header, nat), MtxError>)
    ensures r.Success? ==> 0 < r.value.1 < |lines| && Some(r.value.1) == FirstNonComment(lines, 1)
    ensures r.Success? ==> Success(r.value.0) == ParseHeaderLine(lines[0])
  {
    if |lines| == 0 then Failure(NoLine)
    else
      var h :- ParseHeaderLine(lines[0]);
      match FirstNonComment(lines, 1)
      case None => Failure(NoLine)
      case Some(d) => Success((h, d))
  }

  /** The rest of `parse_lines`: the size line at index d, then the entries on lines d + 1 .. d + entries - 1. */
  function ParseBody(lines: seq<string>, h: Header, d: nat, dec: Decoders): (r: Result<MatrixData, MtxError>)
    requires d < |lines|
    ensures r.Success? ==> r.value.header == h && r.value.dimLine == d
    ensures r.Success? ==> ParseDimensions(h.format, lines[d], dec) == Success(r.value.dims)
  {
    var dims :- ParseDimensions(h.format, lines[d], dec);
    var cs :- DecodeEntries(lines, d + 1, d + dims.entries, d + dims.entries, Some(h.format), Some(h.field), dec);
    Success(MatrixData(h, dims, d, cs))
  }

  /** `parse_lines`: the preamble, then the size line and the entries. */
  function Parse(lines: seq<string>, dec: Decoders): (r: Result<MatrixData, MtxError>)
    ensures r.Success? ==> 0 < r.value.dimLine < |lines| && Some(r.value.dimLine) == FirstNonComment(lines, 1)
    ensures r.Success? ==> Success(r.value.header) == ParseHeaderLine(lines[0])
  {
    var p :- Preamble(lines);
    ParseBody(lines, p.0, p.1, dec)
  }

  /** The first entry line that is missing or fails to decode decides the error of the whole data loop. */
  lemma {:induction false} DecodeEntriesFailAt(lines: seq<string>, first: nat, k: nat, upto: int, lenExpected: int,
                                               format: Option<Format>, field: Option<Field>, dec: Decoders)
    requires first <= k < upto
    requires DecodeEntries(lines, first, k, lenExpected, format, field, dec).Success?
    requires k < |lines| ==> DecodeEntry(format, field, lines[k], dec).Failure?
    ensures DecodeEntries(lines, first, upto, lenExpected, format, field, dec)
         == Failure(if k >= |lines| then MissingEntries(lenExpected - k - 1) else DecodeEntry(format, field, lines[k], dec).error)
    decreases upto - k
  {
    if upto > k + 1 {
      DecodeEntriesFailAt(lines, first, k, upto - 1, lenExpected, format, field, dec);
    }
  }

  /** One more line that decodes extends a successful data loop by its entry. */
  lemma DecodeEntriesStep(lines: seq<string>, first: nat, k: nat, lenExpected: int,
                          format: Option<Format>, field: Option<Field>, dec: Decoders)
    requires first <= k < |lines|
    requires DecodeEntries(lines, first, k, lenExpected, format, field, dec).Success?
    requires DecodeEntry(format, field, lines[k], dec).Success?
    ensures DecodeEntries(lines, first, k + 1, lenExpected, format, field, dec)
         == Success(DecodeEntries(lines, first, k, lenExpected, format, field, dec).value + [DecodeEntry(format, field, lines[k], dec).value])
  {
  }

  /**
   * `cs` are the entries of the lines from index `first` on, in file order and nothing
   * skipped: entry j is the decoding of line `first + j`, which has the token count of
   * the field type and denotes that entry's row, column and value.
   */
  predicate EntriesOfLines(lines: seq<string>, first: nat, format: Option<Format>, field: Option<Field>,
                           dec: Decoders, cs: seq<Entry>)
  {
    forall j :: 0 <= j < |cs| ==>
      && first + j < |lines|
      && DecodeEntry(format, field, lines[first + j], dec) == Success(cs[j])
      && field.Some? && EntryOfLine(FieldType(field).value, lines[first + j], dec, cs[j])
  }

  /** The line has the token count of type `t` and denotes `e`. */
  predicate EntryOfLine(t: ValueType, line: string, dec: Decoders, e: Entry) {
    |Split(line)| == ExpectedItems(t) && EntryOf(t, Split(line), dec, e)
  }

  /** What a successful data loop yields are the entries of the lines in its range. */
  lemma {:induction false} DecodeEntriesAt(lines: seq<string>, first: nat, upto: int, lenExpected: int,
                                           format: Option<Format>, field: Option<Field>, dec: Decoders, cs: seq<Entry>)
    requires DecodeEntries(lines, first, upto, lenExpected, format, field, dec) == Success(cs)
    ensures EntriesOfLines(lines, first, format, field, dec, cs)
    decreases upto - first
  {
    if upto > first {
      var k := upto - 1;
      var prev := DecodeEntries(lines, first, k, lenExpected, format, field, dec);
      assert prev.Success? && k < |lines|;
      assert cs == prev.value + [DecodeEntry(format, field, lines[k], dec).value];
      DecodeEntriesAt(lines, first, k, lenExpected, format, field, dec, prev.value);
      DecodeEntryTokens(format, field, lines[k], dec);
      assert first + (|cs| - 1) == k;
    }
  }

  /** The coordinates of a successful body are what the data loop over the lines after the size line yields. */
  lemma ParseBodyCoordinates(lines: seq<string>, h: Header, d: nat, dec: Decoders, m: MatrixData)
    requires d < |lines| && ParseBody(lines, h, d, dec) == Success(m)
    ensures m.dimLine == d && m.header == h
    ensures var upto := m.dimLine + m.dims.entries;
      Success(m.coordinates) == DecodeEntries(lines, m.dimLine + 1, upto, upto, Some(m.header.format), Some(m.header.field), dec)
  {
  }

  /** Hence the coordinates of a successful body are the entries of the lines after the size line. */
  lemma ParseBodyEntries(lines: seq<string>, h: Header, d: nat, dec: Decoders, m: MatrixData)
    requires d < |lines| && ParseBody(lines, h, d, dec) == Success(m)
    ensures EntriesOfLines(lines, m.dimLine + 1, Some(m.header.format), Some(m.header.field), dec, m.coordinates)
  {
    ParseBodyCoordinates(lines, h, d, dec, m);
    var upto := m.dimLine + m.dims.entries;
    DecodeEntriesAt(lines, m.dimLine + 1, upto, upto, Some(m.header.format), Some(m.header.field), dec, m.coordinates);
  }

  /**
   * A successful parse holds, in file order, the entries of the lines after the size
   * line: entry j comes from line `dimLine + 1 + j`, with row, column and value as
   * that line's tokens denote for the header's field.
   */
  lemma ParsedEntries(lines: seq<string>, dec: Decoders, m: MatrixData)
    requires Parse(lines, dec) == Success(m)
    ensures var upto := m.dimLine + m.dims.entries;
      Success(m.coordinates) == DecodeEntries(lines, m.dimLine + 1, upto, upto, Some(m.header.format), Some(m.header.field), dec)
    ensures EntriesOfLines(lines, m.dimLine + 1, Some(m.header.format), Some(m.header.field), dec, m.coordinates)
  {
    var p := Preamble(lines).value;
    assert ParseBody(lines, p.0, p.1, dec) == Success(m);
    ParseBodyCoordinates(lines, p.0, p.1, dec, m);
    ParseBodyEntries(lines, p.0, p.1, dec, m);
  }

  /** A header failure is reported before any other line is looked at. */
  lemma HeaderFirst(lines: seq<string>, dec: Decoders)
    requires |lines| > 0 && ParseHeaderLine(lines[0]).Failure?
    ensures Parse(lines, dec) == Failure(ParseHeaderLine(lines[0]).error)
  {
  }

  /** As written, the data loop reads one line fewer than the size line declares. */
  lemma {:induction false} ReadsOneFewerEntry(lines: seq<string>, dec: Decoders)
    requires Parse(lines, dec).Success?
    ensures var m := Parse(lines, dec).value;
      |m.coordinates| == if m.dims.entries <= 1 then 0 else m.dims.entries - 1
  {
  }

  /** Running out of lines inside the data range reports `d + entries - len(lines) - 1` missing entries. */
  lemma {:induction false} MissingEntriesCount(lines: seq<string>, first: nat, upto: int, lenExpected: int,
                                               format: Option<Format>, field: Option<Field>, dec: Decoders)
    requires first <= |lines| < upto
    requires forall j :: first <= j < |lines| ==> DecodeEntry(format, field, lines[j], dec).Success?
    ensures DecodeEntries(lines, first, upto, lenExpected, format, field, dec)
            == Failure(MissingEntries(lenExpected - |lines| - 1))
    decreases upto - first
  {
    if upto - 1 > |lines| {
      MissingEntriesCount(lines, first, upto - 1, lenExpected, format, field, dec);
    } else {
      AllEntriesDecode(lines, first, upto - 1, lenExpected, format, field, dec);
    }
  }

  lemma {:induction false} AllEntriesDecode(lines: seq<string>, first: nat, upto: int, lenExpected: int,
                                            format: Option<Format>, field: Option<Field>, dec: Decoders)
    requires upto <= |lines|
    requires forall j :: first <= j < upto ==> DecodeEntry(format, field, lines[j], dec).Success?
    ensures DecodeEntries(lines, first, upto, lenExpected, format, field, dec).Success?
    decreases upto - first
  {
    if upto > first {
      AllEntriesDecode(lines, first, upto - 1, lenExpected, format, field, dec);
    }
  }

  lemma {:induction false} DecodeEntriesPrefix(lines: seq<string>, extra: seq<string>, first: nat, upto: int,
                                               lenExpected: int, format: Option<Format>, field: Option<Field>, dec: Decoders)
    requires DecodeEntries(lines, first, upto, lenExpected, format, field, dec).Success?
    ensures DecodeEntries(lines + extra, first, upto, lenExpected, format, field, dec)
            == DecodeEntries(lines, first, upto, lenExpected, format, field, dec)
    decreases upto - first
  {
    if upto > first {
      DecodeEntriesPrefix(lines, extra, first, upto - 1, lenExpected, format, field, dec);
      assert (lines + extra)[upto - 1] == lines[upto - 1];
    }
  }

  lemma {:induction false} FirstNonCommentPrefix(lines: seq<string>, extra: seq<string>, i: nat)
    requires FirstNonComment(lines, i).Some?
    ensures FirstNonComment(lines + extra, i) == FirstNonComment(lines, i)
    decreases |lines| - i
  {
    assert (lines + extra)[i] == lines[i];
    if StartsWith(lines[i], "%") {
      FirstNonCommentPrefix(lines, extra, i + 1);
    }
  }

  lemma PreambleExtend(lines: seq<string>, extra: seq<string>)
    requires Preamble(lines).Success?
    ensures Preamble(lines + extra) == Preamble(lines)
  {
    assert (lines + extra)[0] == lines[0];
    FirstNonCommentPrefix(lines, extra, 1);
  }

  lemma ParseBodyExtend(lines: seq<string>, extra: seq<string>, h: Header, d: nat, dec: Decoders)
    requires d < |lines| && ParseBody(lines, h, d, dec).Success?
    ensures ParseBody(lines + extra, h, d, dec) == ParseBody(lines, h, d, dec)
  {
    var all := lines + extra;
    assert all[d] == lines[d];
    var dims := ParseDimensions(h.format, lines[d], dec);
    assert dims.Success?;
    var upto := d + dims.value.entries;
    var cs := DecodeEntries(lines, d + 1, upto, upto, Some(h.format), Some(h.field), dec);
    assert cs.Success?;
    DecodeEntriesPrefix(lines, extra, d + 1, upto, upto, Some(h.format), Some(h.field), dec);
    assert ParseBody(lines, h, d, dec) == Success(MatrixData(h, dims.value, d, cs.value));
  }

  /** Lines after the data range are never read: appending lines does not change a successful parse. */
  lemma TrailingLinesIgnored(lines: seq<string>, extra: seq<string>, dec: Decoders)
    requires Parse(lines, dec).Success?
    ensures Parse(lines + extra, dec) == Parse(lines, dec)
  {
    var p := Preamble(lines).value;
    PreambleExtend(lines, extra);
    ParseBodyExtend(lines, extra, p.0, p.1, dec);
  }

  /**
   * The reader's state object (`MatrixMarket`): the header fields, the sizes and the
   * coordinate list, all unset until `ParseLines` fills them.
   */
  class MatrixMarket {
    var mmid: Option<string>
    var matrix: Option<string>
    var format: Option<Format>
    var field: Option<Field>
    var symmetry: Option<Symmetry>
    var rows: Option<int>
    var columns: Option<int>
    var entries: Option<int>
    var coordinates: seq<Entry>

    constructor ()
      ensures mmid == None && matrix == None && format == None && field == None && symmetry == None
      ensures rows == None && columns == None && entries == None && coordinates == []
    {
      mmid, matrix, format, field, symmetry := None, None, None, None, None;
      rows, columns, entries := None, None, None;
      coordinates := [];
    }

    /** `process_line`: decodes one entry and appends it; on failure nothing is appended. */
    method ProcessLine(line: string, dec: Decoders) returns (r: Outcome<MtxError>)
      modifies this`coordinates
      ensures var e := DecodeEntry(format, field, line, dec);
        e.Success? ==> r == Pass && coordinates == old(coordinates) + [e.value]
      ensures var e := DecodeEntry(format, field, line, dec);
        e.Failure? ==> r == Fail(e.error) && coordinates == old(coordinates)
    {
      var items := Split(line);
      if format == Some(Coordinate) {
        var t := FieldType(field);
        if t.Failure? {
          return Fail(t.error);
        }
        var valid := ValidateEntryItems(items, ExpectedItems(t.value));
        if valid.Fail? {
          return valid;
        }
        var c := DecodeItems(t.value, items, dec);
        if c.Failure? {
          return Fail(c.error);
        }
        coordinates := coordinates + [c.value];
        r := Pass;
      } else if format == Some(Array) {
        r := Fail(NotImplemented);
      } else {
        r := Fail(InvalidFormat("None"));
      }
    }

    /** The header fields and the sizes hold those of `m`. */
    ghost predicate Holds(m: MatrixData)
      reads this
    {
      && mmid == Some(m.header.mmid) && matrix == Some(m.header.matrix)
      && format == Some(m.header.format) && field == Some(m.header.field) && symmetry == Some(m.header.symmetry)
      && rows == Some(m.dims.rows) && columns == Some(m.dims.columns) && entries == Some(m.dims.entries)
    }

    /**
     * `parse_lines`: returns the error Parse reports, or passes and leaves the header,
     * the sizes and the entries of Parse's result in the fields. Array storage never
     * touches the coordinate list.
     */
    method ParseLines(lines: seq<string>, dec: Decoders) returns (r: Outcome<MtxError>)
      modifies this
      ensures Parse(lines, dec).Failure? ==> r == Fail(Parse(lines, dec).error)
      ensures Parse(lines, dec).Success? ==>
        var m := Parse(lines, dec).value;
        && r == Pass && Holds(m)
        && coordinates == (if m.header.format == Array then old(coordinates) else []) + m.coordinates
    {
      var preamble := ReadPreamble(lines);
      if preamble.Failure? {
        return Fail(preamble.error);
      }
      r := ReadBody(lines, Preamble(lines).value.0, preamble.value, dec);
    }

    /** Reads the header line into the header fields, then skips the comment lines; returns the size line's index. */
    method ReadPreamble(lines: seq<string>) returns (r: Result<nat, MtxError>)
      modifies this`mmid, this`matrix, this`format, this`field, this`symmetry
      ensures Preamble(lines).Failure? ==> r == Failure(Preamble(lines).error)
      ensures Preamble(lines).Success? ==>
        var h := Preamble(lines).value.0;
        && r == Success(Preamble(lines).value.1)
        && mmid == Some(h.mmid) && matrix == Some(h.matrix)
        && format == Some(h.format) && field == Some(h.field) && symmetry == Some(h.symmetry)
    {
      if |lines| == 0 {
        return Failure(NoLine);
      }
      var header := ParseHeaderLine(lines[0]);
      if header.Failure? {
        return Failure(header.error);
      }
      var h := header.value;
      mmid, matrix, format, field, symmetry := Some(h.mmid), Some(h.matrix), Some(h.format), Some(h.field), Some(h.symmetry);
      var i := 1;
      while i < |lines| && StartsWith(lines[i], "%")
        invariant 1 <= i <= |lines|
        invariant FirstNonComment(lines, 1) == FirstNonComment(lines, i)
        decreases |lines| - i
      {
        i := i + 1;
      }
      if i == |lines| {
        return Failure(NoLine);
      }
      r := Success(i);
    }

    /**
     * Reads the size line at index d and the entries after it, for header `h`
     * already in the fields; a coordinate file starts a fresh coordinate list.
     */
    method ReadBody(lines: seq<string>, ghost h: Header, d: nat, dec: Decoders) returns (r: Outcome<MtxError>)
      requires d < |lines|
      requires mmid == Some(h.mmid) && matrix == Some(h.matrix)
      requires format == Some(h.format) && field == Some(h.field) && symmetry == Some(h.symmetry)
      modifies this`rows, this`columns, this`entries, this`coordinates
      ensures ParseBody(lines, h, d, dec).Failure? ==> r == Fail(ParseBody(lines, h, d, dec).error)
      ensures ParseBody(lines, h, d, dec).Success? ==>
        var m := ParseBody(lines, h, d, dec).value;
        && r == Pass && Holds(m)
        && coordinates == (if h.format == Array then old(coordinates) else []) + m.coordinates
    {
      if format == Some(Coordinate) {
        coordinates := [];
      }
      var dims := ParseDimensions(format.value, lines[d], dec);
      if dims.Failure? {
        return Fail(dims.error);
      }
      rows, columns, entries := Some(dims.value.rows), Some(dims.value.columns), Some(dims.value.entries);
      var lenExpected := d + dims.value.entries;
      r := ReadEntries(lines, d + 1, lenExpected, dec);
    }

    /**
     * The data loop of `parse_lines`: processes lines `first .. lenExpected - 1` in
     * order, appending each entry, and stops at the first line that is missing or
     * does not decode.
     */
    method ReadEntries(lines: seq<string>, first: nat, lenExpected: int, dec: Decoders) returns (r: Outcome<MtxError>)
      modifies this`coordinates
      ensures var es := DecodeEntries(lines, first, lenExpected, lenExpected, format, field, dec);
        && (es.Failure? ==> r == Fail(es.error))
        && (es.Success? ==> r == Pass && coordinates == old(coordinates) + es.value)
    {
      ghost var fmt, fld := format, field;
      var k := first;
      r := Pass;
      while k < lenExpected && r.Pass?
        invariant first <= k && (k <= lenExpected || k == first)
        invariant DecodeEntries(lines, first, k, lenExpected, fmt, fld, dec).Success?
        invariant r.Pass? ==> coordinates == old(coordinates) + DecodeEntries(lines, first, k, lenExpected, fmt, fld, dec).value
        invariant r.Fail? ==> k < lenExpected && DecodeEntries(lines, first, lenExpected, lenExpected, fmt, fld, dec) == Failure(r.error)
        decreases lenExpected - k, if r.Pass? then 1 else 0
      {
        if k >= |lines| {
          DecodeEntriesFailAt(lines, first, k, lenExpected, lenExpected, fmt, fld, dec);
          r := Fail(MissingEntries(lenExpected - k - 1));
        } else {
          r := ProcessLine(lines[k], dec);
          if r.Fail? {
            DecodeEntriesFailAt(lines, first, k, lenExpected, lenExpected, fmt, fld, dec);
          } else {
            DecodeEntriesStep(lines, first, k, lenExpected, fmt, fld, dec);
            k := k + 1;
          }
        }
      }
    }
  }

  /** An entry's edge weight: none in a pattern file, the decoded value otherwise. */
  function EntryWeight(field: Field, c: Entry): Option<Value> {
    if field == Pattern then None else Some(c.value)
  }

  function EntryKey(directed: bool, nodeType: int -> string, c: Entry): EdgeKey {
    Key(directed, nodeType(c.row), nodeType(c.col))
  }

  /** The keys of the entries' edges. */
  function EntryKeys(directed: bool, nodeType: int -> string, cs: seq<Entry>): set<EdgeKey> {
    if cs == [] then {} else EntryKeys(directed, nodeType, cs[..|cs| - 1]) + {EntryKey(directed, nodeType, cs[|cs| - 1])}
  }

  /** The node identifiers of the entries' rows and columns. */
  function EntryNodes(nodeType: int -> string, cs: seq<Entry>): set<string> {
    if cs == [] then {}
    else EntryNodes(nodeType, cs[..|cs| - 1]) + {nodeType(cs[|cs| - 1].row), nodeType(cs[|cs| - 1].col)}
  }

  /** EntryKeys holds the key of every entry, and nothing else. */
  lemma {:induction false} EntryKeysExactly(directed: bool, nodeType: int -> string, cs: seq<Entry>)
    ensures forall k :: k in EntryKeys(directed, nodeType, cs) <==> exists i :: 0 <= i < |cs| && k == EntryKey(directed, nodeType, cs[i])
  {
    if cs != [] {
      var init := cs[..|cs| - 1];
      EntryKeysExactly(directed, nodeType, init);
      forall k ensures k in EntryKeys(directed, nodeType, cs) <==> exists i :: 0 <= i < |cs| && k == EntryKey(directed, nodeType, cs[i]) {
        if k in EntryKeys(directed, nodeType, init) {
          var i :| 0 <= i < |init| && k == EntryKey(directed, nodeType, init[i]);
          assert init[i] == cs[i];
        }
        if i :| 0 <= i < |cs| && k == EntryKey(directed, nodeType, cs[i]) {
          if i < |init| {
            assert init[i] == cs[i];
          }
        }
      }
    }
  }

  /** EntryNodes holds the row and column identifiers of every entry, and nothing else. */
  lemma {:induction false} EntryNodesExactly(nodeType: int -> string, cs: seq<Entry>)
    ensures forall n :: n in EntryNodes(nodeType, cs) <==> exists i :: 0 <= i < |cs| && (n == nodeType(cs[i].row) || n == nodeType(cs[i].col))
  {
    if cs != [] {
      var init := cs[..|cs| - 1];
      EntryNodesExactly(nodeType, init);
      forall n ensures n in EntryNodes(nodeType, cs) <==> exists i :: 0 <= i < |cs| && (n == nodeType(cs[i].row) || n == nodeType(cs[i].col)) {
        if n in EntryNodes(nodeType, init) {
          var i :| 0 <= i < |init| && (n == nodeType(init[i].row) || n == nodeType(init[i].col));
          assert init[i] == cs[i];
        }
        if i :| 0 <= i < |cs| && (n == nodeType(cs[i].row) || n == nodeType(cs[i].col)) {
          if i < |init| {
            assert init[i] == cs[i];
          }
        }
      }
    }
  }

  /** Every entry key fits the graph's kind and joins identifiers of the entries. */
  lemma {:induction false} EntryKeysFit(directed: bool, nodeType: int -> string, cs: seq<Entry>)
    ensures forall k :: k in EntryKeys(directed, nodeType, cs) ==> KeyFits(directed, k) && Ends(k) <= EntryNodes(nodeType, cs)
  {
    if cs != [] {
      var c := cs[|cs| - 1];
      EntryKeysFit(directed, nodeType, cs[..|cs| - 1]);
      KeyFitsKey(directed, nodeType(c.row), nodeType(c.col));
    }
  }

  /** The reader's node order: each entry adds its row, then its column, if not yet present. */
  function BuildNodes(nodeType: int -> string, cs: seq<Entry>): seq<string> {
    if cs == [] then []
    else
      var c := cs[|cs| - 1];
      AddNode(AddNode(BuildNodes(nodeType, cs[..|cs| - 1]), nodeType(c.row)), nodeType(c.col))
  }

  /** Nodes are listed once each, and they are exactly the entries' identifiers. */
  lemma {:induction false} BuildNodesShape(nodeType: int -> string, cs: seq<Entry>)
    ensures Distinct(BuildNodes(nodeType, cs))
    ensures forall n :: n in BuildNodes(nodeType, cs) <==> n in EntryNodes(nodeType, cs)
  {
    if cs != [] {
      var c := cs[|cs| - 1];
      var ns := BuildNodes(nodeType, cs[..|cs| - 1]);
      BuildNodesShape(nodeType, cs[..|cs| - 1]);
      AddNodeProperties(ns, nodeType(c.row));
      AddNodeProperties(AddNode(ns, nodeType(c.row)), nodeType(c.col));
    }
  }

  /**
   * The reader's edges: one per distinct entry key; an entry with a weight
   * overwrites the weight of an earlier entry with the same key.
   */
  function BuildEdges(directed: bool, field: Field, nodeType: int -> string, cs: seq<Entry>): map<EdgeKey, Option<Value>> {
    if cs == [] then map[]
    else
      var c := cs[|cs| - 1];
      var es := BuildEdges(directed, field, nodeType, cs[..|cs| - 1]);
      var k := EntryKey(directed, nodeType, c);
      var w := EntryWeight(field, c);
      es[k := if w.Some? then w else if k in es then es[k] else None]
  }

  /** There is one edge per entry key; a pattern file gives every edge no weight, any other field gives every edge one. */
  lemma {:induction false} BuildEdgesShape(directed: bool, field: Field, nodeType: int -> string, cs: seq<Entry>)
    ensures BuildEdges(directed, field, nodeType, cs).Keys == EntryKeys(directed, nodeType, cs)
    ensures var es := BuildEdges(directed, field, nodeType, cs);
      forall k :: k in es ==> (es[k].Some? <==> field != Pattern)
  {
    if cs != [] {
      BuildEdgesShape(directed, field, nodeType, cs[..|cs| - 1]);
    }
  }

  /** The graph the reader builds from the entries, in file order. */
  function BuildGraph(directed: bool, field: Field, nodeType: int -> string, cs: seq<Entry>): Graph {
    Graph("", directed, BuildNodes(nodeType, cs), BuildEdges(directed, field, nodeType, cs))
  }

  /** BuildGraph is what adding the entries' edges one by one with `add_edge` yields. */
  lemma BuildGraphStep(directed: bool, field: Field, nodeType: int -> string, cs: seq<Entry>, c: Entry)
    ensures BuildGraph(directed, field, nodeType, cs + [c])
         == AddEdge(BuildGraph(directed, field, nodeType, cs), nodeType(c.row), nodeType(c.col), EntryWeight(field, c))
  {
    assert (cs + [c])[..|cs|] == cs;
  }

  /** The graph built from any entries is well formed. */
  lemma BuildGraphWellFormed(directed: bool, field: Field, nodeType: int -> string, cs: seq<Entry>)
    ensures WellFormed(BuildGraph(directed, field, nodeType, cs))
  {
    BuildNodesShape(nodeType, cs);
    BuildEdgesShape(directed, field, nodeType, cs);
    EntryKeysFit(directed, nodeType, cs);
  }

  /**
   * `MatrixMarketReader.__call__` on the parsed data: symmetry `general` gives a
   * directed graph and the other three an undirected one; array storage is not
   * implemented.
   */
  function GraphOf(m: MatrixData, nodeType: int -> string): (r: Result<Graph, MtxError>)
    ensures r.Success? <==> m.header.format == Coordinate
    ensures r.Success? ==> (r.value.directed <==> m.header.symmetry == General)
  {
    match m.header.format
    case Coordinate => Success(BuildGraph(m.header.symmetry == General, m.header.field, nodeType, m.coordinates))
    case Array => Failure(NotImplemented)
  }

  /** `read_mtx`: parse, then build the graph. */
  function ReadMtx(lines: seq<string>, dec: Decoders, nodeType: int -> string): Result<Graph, MtxError> {
    var m :- Parse(lines, dec);
    GraphOf(m, nodeType)
  }

  /** When the same edge appears more than once, the weight of its last entry wins. */
  lemma {:induction false} LastEntryWins(directed: bool, field: Field, nodeType: int -> string, cs: seq<Entry>, i: nat)
    requires field != Pattern
    requires i < |cs|
    requires forall j :: i < j < |cs| ==> EntryKey(directed, nodeType, cs[j]) != EntryKey(directed, nodeType, cs[i])
    ensures var es := BuildGraph(directed, field, nodeType, cs).edges;
      EntryKey(directed, nodeType, cs[i]) in es && es[EntryKey(directed, nodeType, cs[i])] == Some(cs[i].value)
  {
    var init := cs[..|cs| - 1];
    if i < |cs| - 1 {
      assert init[i] == cs[i];
      assert forall j :: i < j < |init| ==> init[j] == cs[j];
      LastEntryWins(directed, field, nodeType, init, i);
    }
  }

  /** A read graph is directed exactly for symmetry `general`. */
  lemma ReadMtxDirectedness(lines: seq<string>, dec: Decoders, nodeType: int -> string)
    requires ReadMtx(lines, dec, nodeType).Success?
    ensures ParseHeaderLine(lines[0]).Success?
    ensures ReadMtx(lines, dec, nodeType).value.directed <==> ParseHeaderLine(lines[0]).value.symmetry == General
  {
  }

  /** Array storage is accepted by the header grammar, yet reading it never yields a graph. */
  lemma ArrayNeverReads(lines: seq<string>, dec: Decoders, nodeType: int -> string)
    requires |lines| > 0 && ParseHeaderLine(lines[0]).Success?
    requires ParseHeaderLine(lines[0]).value.format == Array
    ensures ReadMtx(lines, dec, nodeType).Failure?
  {
  }

  /** A graph read from a pattern file carries no weights; from any other field it is weighted if it has an edge. */
  lemma ReadMtxWeights(lines: seq<string>, dec: Decoders, nodeType: int -> string)
    requires ReadMtx(lines, dec, nodeType).Success?
    ensures var field := ParseHeaderLine(lines[0]).value.field;
            var g := ReadMtx(lines, dec, nodeType).value;
      && (field == Pattern ==> forall k :: k in g.edges ==> g.edges[k] == None)
      && (field != Pattern ==> (IsWeighted(g) <==> |g.edges| > 0))
  {
    var m := Parse(lines, dec).value;
    BuildEdgesShape(m.header.symmetry == General, m.header.field, nodeType, m.coordinates);
    var g := ReadMtx(lines, dec, nodeType).value;
    assert g == BuildGraph(m.header.symmetry == General, m.header.field, nodeType, m.coordinates);
  }

  /**
   * The reader object (`MatrixMarketReader`): `nodeType` turns row and column
   * numbers into node identifiers; `str`, that is IntToString, by default.
   */
  class MatrixMarketReader {
    const nodeType: int -> string
    var mtx: MatrixMarket?

    constructor (nodeType: int -> string)
      ensures this.nodeType == nodeType && mtx == null
    {
      this.nodeType := nodeType;
      mtx := null;
    }

    /** `__call__`: parses the lines into a fresh MatrixMarket and builds its graph, as ReadMtx says. */
    method Call(lines: seq<string>, dec: Decoders) returns (r: Result<Graph, MtxError>)
      modifies this
      ensures r == ReadMtx(lines, dec, nodeType)
      ensures Parse(lines, dec).Success? ==> mtx != null && fresh(mtx)
      ensures Parse(lines, dec).Failure? ==> mtx == old(mtx)
    {
      var m := new MatrixMarket();
      var parsed := m.ParseLines(lines, dec);
      if parsed.Fail? {
        return Failure(parsed.error);
      }
      mtx := m;
      var directed: bool;
      match m.symmetry.value {
        case General => directed := true;
        case Symmetric => directed := false;
        case Hermitian => directed := false;
        case SkewSymmetric => directed := false;
      }
      ghost var data := Parse(lines, dec).value;
      match m.format.value {
        case Array =>
          return Failure(NotImplemented);
        case Coordinate =>
          assert m.coordinates == data.coordinates;
          var graph := AddEntries(directed, m.field.value, m.coordinates);
          r := Success(graph);
      }
    }

    /** The edge-adding loop of `__call__`: every entry in order, through `add_edge`. */
    method AddEntries(directed: bool, field: Field, cs: seq<Entry>) returns (graph: Graph)
      ensures graph == BuildGraph(directed, field, nodeType, cs)
    {
      graph := Empty(directed);
      var k := 0;
      while k < |cs|
        invariant 0 <= k <= |cs|
        invariant graph == BuildGraph(directed, field, nodeType, cs[..k])
      {
        var source := nodeType(cs[k].row);
        var target := nodeType(cs[k].col);
        assert cs[..k + 1] == cs[..k] + [cs[k]];
        BuildGraphStep(directed, field, nodeType, cs[..k], cs[k]);
        ghost var next := BuildGraph(directed, field, nodeType, cs[..k + 1]);
        if field == Pattern {
          graph := AddEdge(graph, source, target, None);
        } else {
          graph := AddEdge(graph, source, target, Some(cs[k].value));
        }
        assert graph == next;
        k := k + 1;
      }
      assert cs[..k] == cs;
    }
  }
}
