# Graph dataset readers and graph measures, modelled in Dafny

This project models the core of a small Python tool that loads network datasets
and computes descriptive measures of them. The tool has four parts:

- **Matrix Market reader** (`MatrixMarket`, `MatrixMarketReader`, `read_mtx`).
  It reads the header line, the comment lines, the size line and the coordinate
  entries of a `.mtx` file. It then builds a networkx `DiGraph` (symmetry
  `general`) or `Graph` (the other three symmetries), one `add_edge` per entry.
- **KONECT edge-list reader** (`EdgesReader`, `read_edges`). It checks the two
  comment-prefixed metadata lines and decides the graph class and the `data`
  argument for networkx's `read_edgelist`.
- **Loader** (`load_raw`, `dump_graphml`). The file suffix picks the reader, and
  the graph is renamed to the file's stem. The GraphML target path is derived
  from the input path.
- **Measures facade** (`GraphMeasures`). It wraps one graph and has one lazily
  filled cache slot per measure: connectivity, degrees, strengths, components,
  path lengths, diameter, eccentricity, efficiency, clustering, assortativity,
  the degree distribution, the top ten central nodes and average centralities.
  It also covers the helper `global_efficiency_directional`.

The modules follow that structure:

- `Wrappers`: `Option`, `Result` and `Outcome`.
- `Text`: Python's `str.split()`, `startswith`, `lstrip` and `str(int)`.
- `Graphs`: a networkx graph as a value, plus `add_edge`, degrees and induced
  subgraphs.
- `Mtx`: the Matrix Market reader.
- `Edges`: the edge-list reader.
- `Ranking`: `Counter(sorted(...))`, `heapq.nlargest` and `statistics.mean`.
- `Utils`: the loader.
- `Measures`: the facade.

The parts of the program that change state step by step keep that form:

- `Mtx.MatrixMarket` is a class whose fields `ParseLines` fills line by line.
- `Mtx.MatrixMarketReader.Call` adds the entries' edges in a loop.
- `Measures.GraphMeasures` is a class whose accessors fill their cache slots.
- `Measures.GlobalEfficiencyDirectional` is the source's double loop.

Each of these is proved against a pure specification function: `Mtx.Parse`,
`Mtx.ReadMtx`, `Measures.Efficiency` and the `...Of` functions of `Measures`.
The properties of those functions are then proved as lemmas.

Several things are modelled as parameters or abstractions:

- Numeric tokens are turned into numbers by `Text.Decoders`, a pair of partial
  functions that stands for Python's `int(...)` and `float(...)`.
- The reader's `node_type` is a function parameter. `load_raw` uses the
  default, `str`, which is `Text.IntToString`.
- Every networkx algorithm the facade calls is a field of `Measures.Algorithms`.
  The facade's own logic around those calls is modelled exactly: which graph,
  which component, which error, which aggregation, which cache slot.
- networkx's `read_edgelist` is a function parameter of `Utils.LoadRaw`.
- Python floats are modelled as exact reals.

The model follows the code as written, including these behaviours:

- The data loop of `parse_lines` runs over `range(i + 1, i + entries)`, so it
  reads one entry fewer than the size line declares (`Mtx.ReadsOneFewerEntry`).
- `strongly_connected` is computed with `is_weakly_connected`.
  `largest_component_measures` therefore treats a weakly connected digraph as
  its own largest component.
- The Hermitian keyword is matched with a capital H, and keyword matching is
  case-sensitive.
- `edge_count` is a single integer for both directed and undirected graphs.

## Model

| member | source | states |
|---|---|---|
| Mtx.ParseFormat | readers/matrix_market.py:61-62 | a format token is accepted exactly when it is a format keyword, and yields that format |
| Mtx.ParseField | readers/matrix_market.py:63-66 | a field token is accepted exactly when it is a field keyword, and yields that field |
| Mtx.ParseSymmetry | readers/matrix_market.py:67-70 | a symmetry token is accepted exactly when it is a symmetry keyword (`Hermitian` capitalised), and yields that symmetry |
| Mtx.AllowedExactly | readers/matrix_market.py:256-275 | the three clauses of the header check admit exactly the 22 listed (format, field, symmetry) combinations |
| Mtx.ValidateHeader | readers/matrix_market.py:256-278 | passes exactly for an allowed combination; otherwise it fails with a ValueError naming the five tokens joined by spaces |
| Mtx.AllowedConsequences | readers/matrix_market.py:256-275 | in an allowed header, Hermitian implies complex values, pattern implies coordinate storage with general or symmetric symmetry, and array storage is never pattern |
| Mtx.ParseHeaderLine | readers/matrix_market.py:169-182 | a parsed header is the five whitespace-separated tokens of line 0, starts with `%%MatrixMarket matrix` and is an allowed combination; every failure is a ValueError |
| Mtx.HeaderCheckOrder | readers/matrix_market.py:169-180 | the checks run in the source's order: token count, magic token, object, format, field, symmetry; each error names the first bad token |
| Mtx.HeaderRoundTrip | readers/matrix_market.py:169-187 | writing an allowed header as five space-separated tokens and reading it back gives the same header |
| Mtx.FirstNonComment | readers/matrix_market.py:188-191 | the index of the first line at or after `i` that does not start with `%`; every line skipped is a comment |
| Mtx.ParseDimensions | readers/matrix_market.py:193-209 | coordinate storage needs exactly three integers (rows, columns, entries), array storage exactly two with rows*columns entries; failures are ValueErrors |
| Mtx.FieldType | readers/matrix_market.py:111-122 | integer gives int, real gives float, complex gives complex, pattern gives bool, each in both directions; a field never set raises ValueError |
| Mtx.ValidateEntryItems | readers/matrix_market.py:250-254 | passes exactly when the item count is the expected one, else reports expected and actual counts |
| Mtx.DecodeItems | readers/matrix_market.py:222-243 | succeeds exactly when every token decodes; the entry is then `int` of the first two tokens as row and column, with value `True`, `int(items[2])`, `float(items[2])` or `complex(float(items[2]), float(items[3]))` for the field type |
| Mtx.DecodeEntry | readers/matrix_market.py:220-248 | array storage raises NotImplementedError; a coordinate line with the wrong token count fails with the expected and actual counts; a decoded entry has the field type's shape |
| Mtx.DecodeEntryTokens | readers/matrix_market.py:220-248 | a coordinate line with the right token count decodes exactly when all its tokens do, into the row, column and value those tokens denote; an unset field fails as `field_type` does and an unset format with the invalid-format ValueError |
| Mtx.DecodeEntries | readers/matrix_market.py:211-218 | a successful data loop yields one entry per index in the range, all of them inside the input |
| Mtx.Preamble | readers/matrix_market.py:167-191 | on success, the header is line 0's and the size line is the first non-comment line after it |
| Mtx.ParseBody | readers/matrix_market.py:193-218 | on success, the header is kept, and the sizes are those the size line at index d gives |
| Mtx.Parse | readers/matrix_market.py:167-218 | on success, the size line is the first non-comment line after the header, and the header is line 0's |
| Mtx.DecodeEntriesAt | readers/matrix_market.py:211-218 | a successful data loop yields, in file order and with none skipped, entry j as the decoding of line `first + j`, whose tokens denote that entry |
| Mtx.ParseBodyCoordinates | readers/matrix_market.py:193-218 | the coordinates of a successful body are what the data loop over the lines after the size line yields |
| Mtx.ParseBodyEntries | readers/matrix_market.py:193-218 | the coordinates of a successful body are the entries of the lines after the size line, in file order |
| Mtx.ParsedEntries | readers/matrix_market.py:167-218 | a successful parse holds, in file order, entry j decoded from line `dimLine + 1 + j`, with row, column and value as that line's tokens denote |
| Mtx.DecodeEntriesStep | readers/matrix_market.py:213-215 | one more line in range that decodes extends a successful data loop by exactly its entry |
| Mtx.DecodeEntriesFailAt | readers/matrix_market.py:211-218 | the first missing or undecodable line decides the error of the whole data loop, and a missing line reports `len_expected - index - 1` |
| Mtx.HeaderFirst | readers/matrix_market.py:169-182 | a bad header is reported before any other line is read |
| Mtx.ReadsOneFewerEntry | readers/matrix_market.py:211-215 | a successful parse holds `entries - 1` coordinates (none when `entries <= 1`): the loop range stops one short of the declared count |
| Mtx.MissingEntriesCount | readers/matrix_market.py:213-218 | running out of lines inside the data range reports `len_expected - len(lines) - 1` missing entries |
| Mtx.AllEntriesDecode | readers/matrix_market.py:213-215 | the data loop succeeds when every line in its range exists and decodes |
| Mtx.DecodeEntriesPrefix | readers/matrix_market.py:213-215 | the data loop's result depends only on the lines in its range |
| Mtx.FirstNonCommentPrefix | readers/matrix_market.py:190-191 | the comment skip does not depend on lines after the first non-comment line |
| Mtx.PreambleExtend | readers/matrix_market.py:167-191 | lines appended after the size line do not change the preamble |
| Mtx.ParseBodyExtend | readers/matrix_market.py:193-218 | lines appended after the data range do not change the body |
| Mtx.TrailingLinesIgnored | readers/matrix_market.py:167-218 | appending lines to an input that parses does not change the parse |
| Mtx.MatrixMarket.constructor | readers/matrix_market.py:79-90 | every header field, size and the coordinate list start unset |
| Mtx.MatrixMarket.ProcessLine | readers/matrix_market.py:220-248 | appends exactly the decoded entry on success; on failure it returns the decoding error and leaves the coordinates alone |
| Mtx.MatrixMarket.ParseLines | readers/matrix_market.py:167-218 | fails with Parse's error, or passes and leaves Parse's header and sizes in the fields and Parse's entries as the coordinate list |
| Mtx.MatrixMarket.ReadPreamble | readers/matrix_market.py:168-191 | sets the five header fields from line 0 and returns the index of the size line, as Preamble says |
| Mtx.MatrixMarket.ReadBody | readers/matrix_market.py:193-218 | sets rows, columns and entries from the size line and fills a fresh coordinate list, as ParseBody says |
| Mtx.MatrixMarket.ReadEntries | readers/matrix_market.py:211-218 | the loop appends the entries DecodeEntries yields, or stops with its error |
| Mtx.EntryKeysExactly | readers/matrix_market.py:41-49 | the edge keys of the entries are exactly the keys of the individual entries |
| Mtx.EntryNodesExactly | readers/matrix_market.py:41-44 | the nodes of the entries are exactly their row and column identifiers |
| Mtx.EntryKeysFit | readers/matrix_market.py:41-49 | every entry key fits the graph's kind and joins identifiers of the entries |
| Mtx.BuildNodesShape | readers/matrix_market.py:41-49 | the graph lists each node once, and its nodes are exactly the entries' identifiers |
| Mtx.BuildEdgesShape | readers/matrix_market.py:41-49 | there is one edge per distinct entry key; a pattern file gives no edge a weight, any other field gives every edge one |
| Mtx.BuildGraphStep | readers/matrix_market.py:41-49 | adding one more entry is one `add_edge` call, with the entry's weight unless the field is pattern |
| Mtx.BuildGraphWellFormed | readers/matrix_market.py:41-49 | the built graph is well formed: distinct nodes, and every edge has a key of the graph's kind between listed nodes |
| Mtx.GraphOf | readers/matrix_market.py:32-54 | a graph is built exactly for coordinate storage, and it is directed exactly for symmetry `general` |
| Mtx.LastEntryWins | readers/matrix_market.py:45-49 | for a repeated edge, the weight of its last entry is the one kept |
| Mtx.ReadMtxDirectedness | readers/matrix_market.py:9-17 | a graph read by `read_mtx` is directed exactly when line 0 declares symmetry `general` |
| Mtx.ArrayNeverReads | readers/matrix_market.py:50-51 | a file whose header declares array storage never yields a graph |
| Mtx.ReadMtxWeights | readers/matrix_market.py:41-49 | a pattern file yields an unweighted graph; any other field yields a graph that is weighted exactly when it has an edge |
| Mtx.MatrixMarketReader.constructor | readers/matrix_market.py:21-24 | the reader keeps the node type it is given |
| Mtx.MatrixMarketReader.Call | readers/matrix_market.py:26-55 | the reader's result is ReadMtx of the lines: parse into a fresh MatrixMarket, then build the graph; the reader holds the new MatrixMarket only when parsing succeeds |
| Mtx.MatrixMarketReader.AddEntries | readers/matrix_market.py:41-49 | the `add_edge` loop over the coordinates builds BuildGraph of the entries |
| Edges.ParseHeader | readers/edges.py:103-116 | fails exactly without the comment prefix; after stripping the marker characters, checks two parameters, the orientation, then the weight, in that order; returns the two keywords unchanged |
| Edges.ParseInfo | readers/edges.py:118-126 | fails exactly without the comment prefix; then needs exactly three parameters, all integers, which it returns in order |
| Edges.CreateUsing | readers/edges.py:68-73 | accepts exactly the three orientation keywords; the graph is directed exactly for `asym` |
| Edges.DataFor | readers/edges.py:75-83 | the six weight-column kinds get a float `weight` column, and the plain kinds get `data=True`, each in both directions; anything else is an invalid weight type |
| Edges.Call | readers/edges.py:62-94 | a successful call hands `read_edgelist` the reader's comment marker, delimiter, node type, edge key type (as `edgetype`) and encoding unchanged |
| Edges.PayloadGroupsPartition | readers/edges.py:21-32 | the two payload groups are disjoint and together are the nine valid weight keywords |
| Edges.HeaderSelectsMapping | readers/edges.py:68-83 | once the header parses, neither the graph-class choice nor the data choice can fail |
| Edges.CallOutcome | readers/edges.py:62-94 | a header failure comes first, then an info failure; otherwise the call succeeds, directed exactly for `asym`, with a weight column exactly for the weight-column kinds |
| Edges.CountsDiscarded | readers/edges.py:66 | the three counts of the info line never influence the result |
| Graphs.Empty | readers/matrix_market.py:33 | a new empty graph is well formed |
| Graphs.AddNodeProperties | readers/matrix_market.py:46-49 | adding a node keeps the existing order, lists every node once and adds exactly that node |
| Graphs.AddEdge | readers/matrix_market.py:46-49 | `add_edge` keeps the graph's name and kind |
| Graphs.AddEdgeProperties | readers/matrix_market.py:46-49 | `add_edge` keeps a graph well formed, makes the edge present, adds exactly its key, leaves other edges' weights alone and adds exactly the two endpoints |
| Graphs.HasEdgeSymmetry | readers/matrix_market.py:32-37 | an undirected graph has (u, v) exactly when it has (v, u); a directed one keeps them apart |
| Graphs.Subgraph | graph_measures.py:176-195 | the induced subgraph keeps name and kind, has exactly the nodes in the set and the edges with both ends in it, with their weights, and stays well formed |
| Graphs.FilterNodes | graph_measures.py:176-195 | node filtering keeps exactly the nodes in the set and keeps them distinct |
| Text.SplitJoin | readers/matrix_market.py:169-170 | `split()` of tokens joined by single spaces gives the tokens back |
| Text.IntTokens | readers/matrix_market.py:198 | `map(int, ...)` (also readers/edges.py:125) gives one integer per token, in order; otherwise it reports the first token `int` refuses, all tokens before it being integers |
| Text.LStrip | readers/edges.py:106 | `lstrip(chars)` removes a prefix made only of marker characters, and what remains does not start with one |
| Text.IntToStringInjective | readers/matrix_market.py:43-44 | `str` on row and column numbers is injective, so distinct numbers give distinct nodes |
| Ranking.CountProperties | graph_measures.py:274-288 | `Counter` counts every value exactly as often as it occurs, has a key exactly for each value present, and its counts are positive and add up to the input length |
| Ranking.CountSortedAscending | graph_measures.py:274-288 | counting a sorted sequence gives strictly ascending keys |
| Ranking.DistributionProperties | graph_measures.py:274-288 | `dict(Counter(sorted(xs)))` has strictly ascending keys and positive counts adding up to the length, counts each value as its multiplicity, and has a key exactly for each value of xs |
| Ranking.NLargest | graph_measures.py:290-296 | `nlargest(n, items)` has `min(n, len(items))` items |
| Ranking.NLargestOrdered | graph_measures.py:290-296 | the selection comes best first and is drawn from the input (a sub-multiset) |
| Ranking.NLargestBest | graph_measures.py:290-296 | no item left out scores more than an item chosen |
| Ranking.NLargestStable | graph_measures.py:290-296 | items with equal scores are taken in input order |
| Ranking.DescendingPairwise | graph_measures.py:290-296 | in a best-first sequence every item scores at least as much as every later one |
| Ranking.InsertDescSorted | graph_measures.py:290-296 | inserting an item into a best-first sequence keeps it best first |
| Ranking.InsertDescPermutes | graph_measures.py:290-296 | inserting an item adds exactly that item and loses none |
| Ranking.SortDescSorted | graph_measures.py:290-296 | sorting by descending score yields a best-first permutation of the input |
| Ranking.InsertDescStable | graph_measures.py:290-296 | an inserted item goes after every earlier item with its score |
| Ranking.SortDescStable | graph_measures.py:290-296 | sorting by descending score keeps the input order of the items with any one score |
| Ranking.Mean | graph_measures.py:139-150 | the mean is undefined exactly for empty data |
| Ranking.MeanBounds | graph_measures.py:314-326 | a mean lies between any lower and upper bound of its data |
| Measures.EfficiencyBounds | graph_measures.py:21-37 | the directional efficiency is never negative, is 0 for fewer than two nodes, and times n(n-1) is at most the number of pairs at positive distance |
| Measures.RowEfficiencyBounds | graph_measures.py:29-33 | one source's contribution is between 0 and the number of its targets at positive distance |
| Measures.EfficiencySumBounds | graph_measures.py:27-33 | the double sum is between 0 and the number of pairs at positive distance |
| Measures.GlobalEfficiencyDirectional | graph_measures.py:21-37 | the double loop computes the sum of 1/d over positive distances divided by n(n-1), and 0 when n(n-1) is 0 |
| Measures.LargestIndex | graph_measures.py:183-191 | `max(components, key=len)` is a component no other outnumbers, the first such, and undefined for no components |
| Measures.MaxOf | graph_measures.py:239 | `max(values)` is one of the values and no smaller than any, and undefined for none |
| Measures.ConnectivityGating | graph_measures.py:91-121 | `connected` raises MeasureError exactly on directed graphs, `weakly_connected` and `strongly_connected` exactly on undirected ones; on a digraph the strong answer is the weak one |
| Measures.AvgEdgeCountShape | graph_measures.py:139-150 | the average degree exists exactly when there is a node, and is an (in, out) pair exactly for a directed graph |
| Measures.AvgStrengthGating | graph_measures.py:152-164 | `avg_strength` raises MeasureError exactly for an unweighted graph; a weighted one gets an (in, out) pair exactly when directed |
| Measures.LargestComponentShape | graph_measures.py:176-195 | a connected graph is its own largest component; otherwise the result is the subgraph on the first component of greatest size, with the graph's direction and well-formedness |
| Measures.ComponentChoice | graph_measures.py:197-225 | diameter is computed on the very component `largest_component_measures` wraps; a digraph's shortest paths use the largest weakly connected component |
| Measures.DegreeDistributionProperties | graph_measures.py:274-288 | the distribution is a pair exactly for a digraph; each dict has ascending keys, positive counts adding up to the node count, and counts each degree by its multiplicity |
| Measures.GraphMeasures.constructor | graph_measures.py:45-71 | the facade keeps the graph, and every cache slot starts empty |
| Measures.GraphMeasures.Directed | graph_measures.py:77-82 | `directed` is `is_directed(graph)`, cached and returned unchanged afterwards |
| Measures.GraphMeasures.Weighted | graph_measures.py:84-89 | `weighted` is `is_weighted(graph)`, cached |
| Measures.GraphMeasures.Connected | graph_measures.py:91-99 | `connected` is ConnectedOf, fills the `directed` slot, and caches only a success |
| Measures.GraphMeasures.WeaklyConnected | graph_measures.py:101-110 | `weakly_connected` is WeaklyConnectedOf, cached only on success |
| Measures.GraphMeasures.StronglyConnected | graph_measures.py:112-121 | `strongly_connected` is StronglyConnectedOf (the weak test), cached only on success |
| Measures.GraphMeasures.NodeCount | graph_measures.py:123-127 | `node_count` is the number of nodes, cached |
| Measures.GraphMeasures.EdgeCount | graph_measures.py:129-137 | `edge_count` is the number of edges for both graph kinds, cached |
| Measures.GraphMeasures.AvgEdgeCount | graph_measures.py:139-150 | `avg_edge_count` is the mean degree, or the mean in- and out-degree of a digraph, cached only on success |
| Measures.GraphMeasures.AvgStrength | graph_measures.py:152-164 | `avg_strength` is the mean strength (per direction when directed) of a weighted graph, and raises for an unweighted one |
| Measures.GraphMeasures.ComponentCount | graph_measures.py:166-174 | `component_count` counts strongly connected components of a digraph and connected components otherwise, cached |
| Measures.GraphMeasures.LargestComponentMeasures | graph_measures.py:176-195 | returns itself, uncached, when connected; otherwise a fresh facade over the largest component, which is cached and returned from then on; on a first call it caches `directed`, and `strongly_connected` (digraph) or `connected` (graph), leaving the other connectivity slot alone |
| Measures.GraphMeasures.CacheLargest | graph_measures.py:183-195 | wraps the subgraph on the largest of the components in a fresh facade and caches it; no components is an error |
| Measures.GraphMeasures.ShortestPathLength | graph_measures.py:197-210 | the average shortest path length of the largest (weakly, when directed) connected component, cached only on success |
| Measures.GraphMeasures.Diameter | graph_measures.py:212-225 | the diameter of the largest (strongly, when directed) connected component, cached only on success |
| Measures.GraphMeasures.Eccentricity | graph_measures.py:227-241 | the greatest eccentricity in that component, cached only on success |
| Measures.GraphMeasures.GlobalEfficiency | graph_measures.py:243-251 | the directional efficiency for a digraph and networkx's global efficiency otherwise, cached |
| Measures.GraphMeasures.GlobalClusteringCoefficient | graph_measures.py:253-258 | `transitivity(graph)`, cached |
| Measures.GraphMeasures.AvgClusteringCoefficient | graph_measures.py:260-265 | `average_clustering(graph)`, cached |
| Measures.GraphMeasures.DegreeAssortativity | graph_measures.py:267-272 | `degree_assortativity_coefficient(graph)`, cached |
| Measures.GraphMeasures.DegreeDistribution | graph_measures.py:274-288 | the sorted degree counter (per direction when directed), cached |
| Measures.GraphMeasures.Top10CentralDegree | graph_measures.py:290-296 | the ten best degree-centrality items, as NLargest selects them, cached |
| Measures.GraphMeasures.Top10CentralBetweenness | graph_measures.py:298-304 | the ten best betweenness items, cached |
| Measures.GraphMeasures.Top10CentralCloseness | graph_measures.py:306-312 | the ten best closeness items, cached |
| Measures.GraphMeasures.AvgClosenessCentrality | graph_measures.py:314-319 | the mean closeness score, cached only on success |
| Measures.GraphMeasures.AvgBetweennessCentrality | graph_measures.py:321-326 | the mean betweenness score, cached only on success |
| Utils.RFindDot | utils.py:25-31 | the index of the last dot of the name, or -1 |
| Utils.StemSuffix | utils.py:25-31 | a name is its stem followed by its suffix; a suffix is empty or a dot and at least one more character without dots; a non-empty name has a non-empty stem |
| Utils.WithSuffix | utils.py:36 | `with_suffix` fails exactly for an empty name, keeps the parent and replaces the old suffix |
| Utils.DumpTarget | utils.py:35-36 | the GraphML target sits beside the input, and is undefined for an empty name |
| Utils.DumpTargetName | utils.py:36 | the target's name is the stem plus `.graphml`; when the stem has a suffix of its own, that suffix is replaced too |
| Utils.LoadRaw | utils.py:11-32 | a loaded graph is named after the path's stem; the load fails as unsupported exactly for a suffix other than `.mtx` and `.edges` |
| Utils.LoadRawDispatch | utils.py:25-31 | `.mtx` loads what `read_mtx` reads, `.edges` what `read_edges` with marker `%` requests, and any other suffix fails whatever the file holds |
| Utils.LoadRawDirectedness | utils.py:25-31 | a `.mtx` load keeps the reader's direction; an `.edges` load is directed exactly for orientation `asym` |

## Left out

- File and stream I/O is not modelled: `from_file`, opening the file in `read_mtx`/`read_edges`, `get_metadata`'s `readline` calls (`Utils.Metadata` takes the lines instead), `write_graphml` and `load_graphml`. Files are given as sequences of lines.
- `MatrixMarket.from_string` and the `string` argument of `MatrixMarketReader.__call__` are not modelled; only the path route is.
- The `values` property (which always raises) and `_values` of array storage are not modelled, since array storage is never read into a graph.
- `MatrixMarketReader`'s `edge_key_type` and `edge_ids` are stored but never influence the result; they are not modelled.
- The `len(glist) == 0` check of `read_mtx` can never fire and is not modelled.
- The unsupported-symmetry and unsupported-format branches of `MatrixMarketReader.__call__` cannot be reached after a successful parse, so they are not modelled.
- `Mtx.MatrixMarket.ParseLines`: on failure it states only the error, not the partially filled fields the program leaves behind.
- `Edges.Call`: the body of `read_edgelist` (parsing the edge lines, converting nodes and edge data with `nodetype` and `edgetype`, decoding with `encoding`, its own errors) belongs to networkx and is not modelled. The model stops at the arguments the reader passes, among them `nodetype`, `edgetype` and `encoding`, which the reader forwards unchanged and which `load_raw` leaves at their defaults (None, None, `utf-8`). Python types are modelled by their names. `Utils.LoadRaw` takes `read_edgelist` as a function parameter.
- The networkx algorithms (connectivity, components, shortest paths, diameter, eccentricity, efficiency, clustering, assortativity, centralities and strengths) are parameters. Their own exceptions, for example on a null graph, are not modelled.
- `Measures.ShortestPathLengthOf` always succeeds, but networkx's `average_shortest_path_length` raises NetworkXError on a digraph whose largest weakly connected component (the one `shortest_path_length` measures) is not strongly connected; that raise is not modelled.
- `Graphs.Subgraph` keeps the node order of the whole graph. networkx's `subgraph(component).copy()` iterates the component set when it holds fewer than half of the graph's nodes, so its node order then follows the set; no property here depends on node order inside a subgraph.
- Numeric decoding (`int`, `float`, `complex`) is abstract (`Text.Decoders`); Python's exact literal grammar is not modelled.
- Floating-point rounding is not modelled: efficiencies, means and scores are exact reals.
- `Measures.GraphMeasures`: the graph is an immutable value, so a caller mutating the wrapped networkx graph after a measure was cached is not modelled.
- The `graph` property of `GraphMeasures` is the constant field `graph` and has no accessor method.
- The program's entry point and path configuration (`main.py`, `paths.py`) and the commented-out older loader inside `load_raw` are not part of this model.
- `mtx.py` repeats the two readers line for line. The model cites the copies under `readers/`.
