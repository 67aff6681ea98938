/**
 * The KONECT-style edge-list reader (`EdgesReader`): two comment-prefixed header
 * lines, the first naming the edge orientation and the weight kind, the second
 * holding three integer counts. They decide which graph class and which `data`
 * argument are handed to networkx's `read_edgelist`, which reads the body.
 */
module Edges {
  import opened Wrappers
  import opened Text

  const SYM: string := "sym"
  const ASYM: string := "asym"
  const BIP: string := "bip"

  /** The orientation keywords, in the order the reader lists them. */
  const VALID_EDGES: seq<string> := [SYM, ASYM, BIP]

  /** The nine weight keywords, in the order the reader lists them. */
  const VALID_WEIGHT: seq<string> :=
    ["unweighted", "positive", "posweighted", "signed", "multisigned",
     "weighted", "multiweighted", "dynamic", "multiposweighted"]

  /** Weight kinds whose edge lines carry a float `weight` column. */
  const WEIGHT_COLUMN_KINDS: set<string> :=
    {"posweighted", "signed", "multisigned", "weighted", "multiweighted", "multiposweighted"}

  /** Weight kinds read with `data=True`. */
  const PLAIN_KINDS: set<string> := {"unweighted", "positive", "dynamic"}

  datatype EdgesError =
    | InvalidHeaderFormat(header: string)
    | InvalidInfoFormat(info: string)
    | ParameterCount(count: nat)
    | InvalidEdgeType(edges: string)
    | InvalidWeightType(weight: string)
    | NotAnInteger(token: string)

  /**
   * The reader's settings, fixed at construction. `nodeType` and `edgeKeyType` name
   * the Python types handed on to `read_edgelist` (None when unset).
   */
  datatype EdgesReader = EdgesReader(comments: string, delimiter: Option<string>, nodeType: Option<string>,
                                     edgeKeyType: Option<string>, encoding: string)

  /** `read_edges(path, comments)`: a reader with no delimiter, no node type, no edge key type and UTF-8. */
  function ReadEdgesReader(comments: string): EdgesReader {
    EdgesReader(comments, None, None, None, "utf-8")
  }

  /** The `data` argument: a single float `weight` column, or `True`. */
  datatype Payload = WeightColumn | DictData

  /** The call `__call__` ends with: `read_edgelist` with these arguments. */
  datatype EdgeListRequest = EdgeListRequest(comments: string, delimiter: Option<string>, directed: bool,
                                             nodeType: Option<string>, data: Payload, edgeType: Option<string>,
                                             encoding: string)

  /**
   * `parse_header`: the line must start with the marker; every leading marker
   * character is stripped, and what is left must split into an orientation keyword
   * and a weight keyword, which are returned unchanged. Checks run in that order.
   */
  function ParseHeader(reader: EdgesReader, header: string): (r: Result<(string, string), EdgesError>)
    ensures !StartsWith(header, reader.comments) <==> r == Failure(InvalidHeaderFormat(header))
    ensures var ps := Split(LStrip(header, Chars(reader.comments)));
      && (StartsWith(header, reader.comments) && |ps| != 2 ==> r == Failure(ParameterCount(|ps|)))
      && (StartsWith(header, reader.comments) && |ps| == 2 && ps[0] !in VALID_EDGES ==> r == Failure(InvalidEdgeType(ps[0])))
      && (StartsWith(header, reader.comments) && |ps| == 2 && ps[0] in VALID_EDGES && ps[1] !in VALID_WEIGHT ==>
            r == Failure(InvalidWeightType(ps[1])))
      && (r.Success? <==> StartsWith(header, reader.comments) && |ps| == 2 && ps[0] in VALID_EDGES && ps[1] in VALID_WEIGHT)
      && (r.Success? ==> r.value == (ps[0], ps[1]))
  {
    if !StartsWith(header, reader.comments) then Failure(InvalidHeaderFormat(header))
    else
      var params := Split(LStrip(header, Chars(reader.comments)));
      if |params| != 2 then Failure(ParameterCount(|params|))
      else if params[0] !in VALID_EDGES then Failure(InvalidEdgeType(params[0]))
      else if params[1] !in VALID_WEIGHT then Failure(InvalidWeightType(params[1]))
      else Success((params[0], params[1]))
  }

  /**
   * `parse_info`: the line must start with the marker, and after stripping it must
   * split into exactly three integers (edge, subject and object counts).
   */
  function ParseInfo(reader: EdgesReader, info: string, dec: Decoders): (r: Result<(int, int, int), EdgesError>)
    ensures !StartsWith(info, reader.comments) <==> r == Failure(InvalidInfoFormat(info))
    ensures var ps := Split(LStrip(info, Chars(reader.comments)));
      && (StartsWith(info, reader.comments) && |ps| != 3 ==> r == Failure(ParameterCount(|ps|)))
      && (r.Success? ==> |ps| == 3 && dec.toInt(ps[0]) == Some(r.value.0)
                         && dec.toInt(ps[1]) == Some(r.value.1) && dec.toInt(ps[2]) == Some(r.value.2))
      && (r.Success? <==> StartsWith(info, reader.comments) && |ps| == 3
                          && forall i :: 0 <= i < 3 ==> dec.toInt(ps[i]).Some?)
  {
    if !StartsWith(info, reader.comments) then Failure(InvalidInfoFormat(info))
    else
      var params := Split(LStrip(info, Chars(reader.comments)));
      if |params| != 3 then Failure(ParameterCount(|params|))
      else
        match IntTokens(params, dec)
        case Failure(t) => Failure(NotAnInteger(t))
        case Success(ns) => Success((ns[0], ns[1], ns[2]))
  }

  /** The graph class for an orientation: `Graph` for sym and bip, `DiGraph` for asym; true means directed. */
  function CreateUsing(edges: string): (r: Result<bool, EdgesError>)
    ensures r.Success? <==> edges in VALID_EDGES
    ensures r.Success? ==> (r.value <==> edges == ASYM)
    ensures r.Failure? ==> r.error == InvalidEdgeType(edges)
  {
    if edges == SYM || edges == BIP then Success(false)
    else if edges == ASYM then Success(true)
    else Failure(InvalidEdgeType(edges))
  }

  /** The `data` argument for a weight kind. */
  function DataFor(weight: string): (r: Result<Payload, EdgesError>)
    ensures r == Success(WeightColumn) <==> weight in WEIGHT_COLUMN_KINDS
    ensures r == Success(DictData) <==> weight in PLAIN_KINDS
    ensures r.Failure? ==> r.error == InvalidWeightType(weight)
  {
    if weight in WEIGHT_COLUMN_KINDS then Success(WeightColumn)
    else if weight in PLAIN_KINDS then Success(DictData)
    else Failure(InvalidWeightType(weight))
  }

  /**
   * `__call__` on the two metadata lines: parse the header, then the info line (its
   * counts are discarded), then choose the graph class and the data argument.
   */
  function Call(reader: EdgesReader, header: string, info: string, dec: Decoders): (r: Result<EdgeListRequest, EdgesError>)
    ensures r.Success? ==> r.value.comments == reader.comments && r.value.delimiter == reader.delimiter
    ensures r.Success? ==> r.value.nodeType == reader.nodeType && r.value.edgeType == reader.edgeKeyType
                           && r.value.encoding == reader.encoding
  {
    var (edges, weight) :- ParseHeader(reader, header);
    var _ :- ParseInfo(reader, info, dec);
    match (CreateUsing(edges), DataFor(weight))
    case (Failure(e), _) => Failure(e)
    case (_, Failure(e)) => Failure(e)
    case (Success(directed), Success(data)) => Success(EdgeListRequest(reader.comments, reader.delimiter, directed, reader.nodeType, data,
                                                                  reader.edgeKeyType, reader.encoding))
  }

  /** The two payload groups split the nine weight keywords between them. */
  lemma PayloadGroupsPartition()
    ensures WEIGHT_COLUMN_KINDS !! PLAIN_KINDS
    ensures forall w :: w in VALID_WEIGHT <==> w in WEIGHT_COLUMN_KINDS + PLAIN_KINDS
  {
  }

  /** Once the header passes, neither mapping can fail: their error branches are unreachable. */
  lemma {:induction false} HeaderSelectsMapping(reader: EdgesReader, header: string)
    requires ParseHeader(reader, header).Success?
    ensures CreateUsing(ParseHeader(reader, header).value.0).Success?
    ensures DataFor(ParseHeader(reader, header).value.1).Success?
  {
    PayloadGroupsPartition();
  }

  /**
   * A call fails exactly when one of the two lines fails to parse, header first;
   * when it succeeds, directedness follows the orientation keyword alone and the
   * payload the weight keyword alone.
   */
  lemma {:induction false} CallOutcome(reader: EdgesReader, header: string, info: string, dec: Decoders)
    ensures var h, r := ParseHeader(reader, header), Call(reader, header, info, dec);
      && (h.Failure? ==> r == Failure(h.error))
      && (h.Success? && ParseInfo(reader, info, dec).Failure? ==> r == Failure(ParseInfo(reader, info, dec).error))
      && (h.Success? && ParseInfo(reader, info, dec).Success? ==>
            && r.Success?
            && (r.value.directed <==> h.value.0 == ASYM)
            && (r.value.data == WeightColumn <==> h.value.1 in WEIGHT_COLUMN_KINDS))
  {
    if ParseHeader(reader, header).Success? {
      HeaderSelectsMapping(reader, header);
    }
  }

  /** The three counts are never used: any two info lines that parse give the same request. */
  lemma CountsDiscarded(reader: EdgesReader, header: string, info1: string, info2: string, dec: Decoders)
    requires ParseInfo(reader, info1, dec).Success? && ParseInfo(reader, info2, dec).Success?
    ensures Call(reader, header, info1, dec) == Call(reader, header, info2, dec)
  {
  }
}
