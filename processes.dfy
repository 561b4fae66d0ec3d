/**
 * The deterministic steps of the ingestion and retrieval pipeline in utils/processes.py:
 * joining the extracted page texts, assembling the (id, vector, metadata) triples that are
 * upserted into the vector index, and building the augmented prompt from the query matches.
 * The PDF reader, the text splitter, the embedding models, the vector index and the chat model
 * are outside the model: their outputs are parameters here.
 */
module Processes {
  import opened Wrappers
  import opened Values
  import opened Strings

  /** Metadata key under which each record carries its chunk text. */
  const TextKey: string := "text"
  /** Metadata key whose value prefixes every record id. */
  const CodeKey: string := "code"
  /** Placed between two retrieved contexts in the augmented prompt. */
  const ContextSeparator: string := "\n\n---\n\n"
  /** Placed between the retrieved contexts and the user's query. */
  const QueryDivider: string := "\n\n-----\n\n"

  /** What the modelled Python code raises. */
  datatype Error =
    | MissingKey(key: string)     // KeyError on a metadata dictionary
    | MissingText(index: nat)     // KeyError: match `index` has no 'text' in its metadata
    | TextNotString(index: nat)   // TypeError in str.join: the text of match `index` is not a str
    | NoContext                   // TypeError: the index query returned None

  // ---------------------------------------------------------------- page text

  /** Accumulates the text of every page, in page order, with nothing in between. */
  method GetTextFromPdf(pages: seq<string>) returns (allText: string)
    ensures allText == Concat(pages)
  {
    allText := "";
    for p := 0 to |pages|
      invariant allText == Concat(pages[..p])
    {
      assert pages[..p + 1] == pages[..p] + [pages[p]];
      ConcatAppend(pages[..p], [pages[p]]);
      assert Concat([pages[p]]) == pages[p] + Concat([]);
      allText := allText + pages[p];
    }
    assert pages[..|pages|] == pages;
  }

  /** Page k sits in the document text right after the pages before it and right before the
      pages after it: no page is dropped, reordered or separated from its neighbours. */
  lemma {:induction false} PageTextLayout(pages: seq<string>, k: nat)
    requires k < |pages|
    ensures Concat(pages) == Concat(pages[..k]) + pages[k] + Concat(pages[k + 1..])
  {
    var before, after := pages[..k], pages[k + 1..];
    calc {
      Concat(pages);
      { assert pages == (before + [pages[k]]) + after; }
      Concat((before + [pages[k]]) + after);
      { ConcatAppend(before + [pages[k]], after); }
      Concat(before + [pages[k]]) + Concat(after);
      { ConcatAppend(before, [pages[k]]); assert Concat([pages[k]]) == pages[k] + Concat([]); }
      Concat(before) + pages[k] + Concat(after);
    }
  }

  // ---------------------------------------------------------------- upsert records

  /** One upsert triple: id, embedding vector (opaque here) and metadata. */
  datatype Record<E> = Record(id: string, values: E, metadata: map<string, Value>)

  /** A split document; only its page content is used. */
  datatype Document = Document(pageContent: string)

  function Min(a: int, b: int): int {
    if a < b then a else b
  }

  /** The id f"{code}-{token}". */
  function RecordId(code: Value, token: string): (id: string)
    ensures Format(code) + "-" <= id && id[|Format(code)| + 1..] == token
  {
    Format(code) + "-" + token
  }

  /** The dictionary {**metadata, 'text': chunk}: a copy of metadata whose 'text' is the chunk. */
  function WithText(metadata: map<string, Value>, chunk: string): (m: map<string, Value>)
    ensures m.Keys == metadata.Keys + {TextKey}
    ensures m[TextKey] == Str(chunk)
    ensures forall k :: k in metadata && k != TextKey ==> m[k] == metadata[k]
  {
    metadata[TextKey := Str(chunk)]
  }

  /** Python's zip over three lists: stops at the shortest one. */
  function Zip<E>(ids: seq<string>, vectors: seq<E>, metadatas: seq<map<string, Value>>): (r: seq<Record<E>>)
    ensures |r| == Min(|ids|, Min(|vectors|, |metadatas|))
    ensures forall i :: 0 <= i < |r| ==> r[i] == Record(ids[i], vectors[i], metadatas[i])
  {
    if ids == [] || vectors == [] || metadatas == [] then []
    else [Record(ids[0], vectors[0], metadatas[0])] + Zip(ids[1..], vectors[1..], metadatas[1..])
  }

  /** The records for chunks and embeddings paired front to front, tokens[i] naming the i-th. */
  function Assembled<E>(chunks: seq<string>, embeddings: seq<E>, metadata: map<string, Value>,
                        tokens: seq<string>): (r: seq<Record<E>>)
    requires |chunks| <= |tokens|
    requires chunks != [] ==> CodeKey in metadata
    ensures |r| == Min(|chunks|, |embeddings|)
  {
    if chunks == [] || embeddings == [] then []
    else
      [Record(RecordId(metadata[CodeKey], tokens[0]), embeddings[0], WithText(metadata, chunks[0]))]
      + Assembled(chunks[1..], embeddings[1..], metadata, tokens[1..])
  }

  /**
   * create_records_to_upsert: one id and one metadata copy per chunk, then zip with the
   * embeddings. tokens[i] stands for the i-th uuid4() drawn. metadata['code'] is looked up once
   * per chunk, so a missing code raises only when there is at least one chunk.
   */
  method CreateRecordsToUpsert<E>(chunks: seq<string>, embeddings: seq<E>,
                                  metadata: map<string, Value>, tokens: seq<string>)
    returns (r: Result<seq<Record<E>>, Error>)
    requires |chunks| <= |tokens|
    ensures r.Failure? <==> chunks != [] && CodeKey !in metadata
    ensures r.Failure? ==> r.error == MissingKey(CodeKey)
    ensures r.Success? ==> r.value == Assembled(chunks, embeddings, metadata, tokens)
  {
    var ids: seq<string> := [];
    var metadatas: seq<map<string, Value>> := [];
    for i := 0 to |chunks|
      invariant i > 0 ==> CodeKey in metadata
      invariant |ids| == i && |metadatas| == i
      invariant forall j :: 0 <= j < i ==> ids[j] == RecordId(metadata[CodeKey], tokens[j])
      invariant forall j :: 0 <= j < i ==> metadatas[j] == WithText(metadata, chunks[j])
    {
      if CodeKey !in metadata {
        return Failure(MissingKey(CodeKey));
      }
      ids := ids + [RecordId(metadata[CodeKey], tokens[i])];
      metadatas := metadatas + [WithText(metadata, chunks[i])];
    }
    var records := Zip(ids, embeddings, metadatas);
    AssembledRecords(chunks, embeddings, metadata, tokens);
    assert records == Assembled(chunks, embeddings, metadata, tokens);
    r := Success(records);
  }

  /** [doc.page_content for doc in documents] */
  function PageContents(documents: seq<Document>): seq<string> {
    seq(|documents|, i requires 0 <= i < |documents| => documents[i].pageContent)
  }

  /** create_vector_from_documents_to_upsert: the same records create_records_to_upsert builds
      from the documents' page contents. */
  method CreateVectorFromDocumentsToUpsert<E>(documents: seq<Document>, embeddings: seq<E>,
                                              metadata: map<string, Value>, tokens: seq<string>)
    returns (r: Result<seq<Record<E>>, Error>)
    requires |documents| <= |tokens|
    ensures r.Failure? <==> documents != [] && CodeKey !in metadata
    ensures r.Failure? ==> r.error == MissingKey(CodeKey)
    ensures r.Success? ==> r.value == Assembled(PageContents(documents), embeddings, metadata, tokens)
  {
    var content := PageContents(documents);
    r := CreateRecordsToUpsert(content, embeddings, metadata, tokens);
  }

  /** zip truncates: as many records as the shorter of chunks and embeddings, and record i
      carries the i-th token's id, the i-th embedding and the i-th chunk. */
  lemma {:induction false} AssembledRecords<E>(chunks: seq<string>, embeddings: seq<E>,
                                              metadata: map<string, Value>, tokens: seq<string>)
    requires |chunks| <= |tokens|
    requires chunks != [] ==> CodeKey in metadata
    ensures var r := Assembled(chunks, embeddings, metadata, tokens);
      && |r| == Min(|chunks|, |embeddings|)
      && forall i :: 0 <= i < |r| ==>
           r[i] == Record(RecordId(metadata[CodeKey], tokens[i]), embeddings[i], WithText(metadata, chunks[i]))
  {
    if chunks != [] && embeddings != [] {
      AssembledRecords(chunks[1..], embeddings[1..], metadata, tokens[1..]);
    }
  }

  /** With as many embeddings as chunks, every chunk gets exactly one record. */
  lemma AssembledCountWhenLengthsAgree<E>(chunks: seq<string>, embeddings: seq<E>,
                                          metadata: map<string, Value>, tokens: seq<string>)
    requires |chunks| <= |tokens|
    requires chunks != [] ==> CodeKey in metadata
    requires |chunks| == |embeddings|
    ensures |Assembled(chunks, embeddings, metadata, tokens)| == |chunks|
  {
  }

  /** Every id is the document code, a dash, and the token drawn for that record. */
  lemma {:induction false} AssembledIdsCarryCode<E>(chunks: seq<string>, embeddings: seq<E>,
                                 metadata: map<string, Value>, tokens: seq<string>)
    requires |chunks| <= |tokens|
    requires chunks != [] ==> CodeKey in metadata
    ensures var r := Assembled(chunks, embeddings, metadata, tokens);
      forall i :: 0 <= i < |r| ==>
        Format(metadata[CodeKey]) + "-" <= r[i].id && r[i].id[|Format(metadata[CodeKey])| + 1..] == tokens[i]
  {
    AssembledRecords(chunks, embeddings, metadata, tokens);
  }

  /** Record i's metadata keeps every input key and value, except that 'text' is chunk i,
      whether or not the input already had a 'text'. */
  lemma {:induction false} AssembledMetadata<E>(chunks: seq<string>, embeddings: seq<E>,
                             metadata: map<string, Value>, tokens: seq<string>)
    requires |chunks| <= |tokens|
    requires chunks != [] ==> CodeKey in metadata
    ensures var r := Assembled(chunks, embeddings, metadata, tokens);
      forall i :: 0 <= i < |r| ==>
        && r[i].metadata.Keys == metadata.Keys + {TextKey}
        && r[i].metadata[TextKey] == Str(chunks[i])
        && forall k :: k in metadata && k != TextKey ==> r[i].metadata[k] == metadata[k]
  {
    AssembledRecords(chunks, embeddings, metadata, tokens);
  }

  /** Distinct tokens give distinct ids. */
  lemma {:induction false} AssembledIdsDistinct<E>(chunks: seq<string>, embeddings: seq<E>,
                                metadata: map<string, Value>, tokens: seq<string>)
    requires |chunks| <= |tokens|
    requires chunks != [] ==> CodeKey in metadata
    requires forall i, j :: 0 <= i < j < |chunks| ==> tokens[i] != tokens[j]
    ensures var r := Assembled(chunks, embeddings, metadata, tokens);
      forall i, j :: 0 <= i < j < |r| ==> r[i].id != r[j].id
  {
    AssembledIdsCarryCode(chunks, embeddings, metadata, tokens);
    AssembledRecords(chunks, embeddings, metadata, tokens);
  }

  // ---------------------------------------------------------------- augmented prompt

  /** A query match; only its metadata is read. */
  datatype Match = Match(metadata: map<string, Value>)

  /** [item['metadata']['text'] for item in matches], raising at the first match without a text. */
  function MatchTexts(matches: seq<Match>): (r: Result<seq<Value>, Error>)
    ensures r.Success? <==> forall i :: 0 <= i < |matches| ==> TextKey in matches[i].metadata
    ensures r.Success? ==> |r.value| == |matches|
    ensures r.Success? ==> forall i :: 0 <= i < |matches| ==> r.value[i] == matches[i].metadata[TextKey]
    ensures r.Failure? ==> && r.error.MissingText?
                           && r.error.index < |matches|
                           && TextKey !in matches[r.error.index].metadata
                           && forall j :: 0 <= j < r.error.index ==> TextKey in matches[j].metadata
  {
    if matches == [] then Success([])
    else if TextKey !in matches[0].metadata then Failure(MissingText(0))
    else
      match MatchTexts(matches[1..])
      case Success(rest) => Success([matches[0].metadata[TextKey]] + rest)
      case Failure(e) => Failure(MissingText(e.index + 1))
  }

  /** What str.join accepts: every item a str, else a TypeError naming the first that is not. */
  function AsStrings(vs: seq<Value>): (r: Result<seq<string>, Error>)
    ensures r.Success? <==> forall i :: 0 <= i < |vs| ==> vs[i].Str?
    ensures r.Success? ==> |r.value| == |vs|
    ensures r.Success? ==> forall i :: 0 <= i < |vs| ==> r.value[i] == vs[i].s
    ensures r.Failure? ==> && r.error.TextNotString?
                           && r.error.index < |vs|
                           && !vs[r.error.index].Str?
                           && forall j :: 0 <= j < r.error.index ==> vs[j].Str?
  {
    if vs == [] then Success([])
    else if !vs[0].Str? then Failure(TextNotString(0))
    else
      match AsStrings(vs[1..])
      case Success(rest) => Success([vs[0].s] + rest)
      case Failure(e) => Failure(TextNotString(e.index + 1))
  }

  /** Every match carries a str under 'text'. */
  predicate AllTexts(matches: seq<Match>) {
    forall i :: 0 <= i < |matches| ==> TextKey in matches[i].metadata && matches[i].metadata[TextKey].Str?
  }

  /** The texts of the matches, in match order. */
  function TextsOf(matches: seq<Match>): seq<string>
    requires AllTexts(matches)
  {
    seq(|matches|, i requires 0 <= i < |matches| && AllTexts(matches) => matches[i].metadata[TextKey].s)
  }

  /**
   * The augmented query of get_response: the match texts joined by ContextSeparator, then
   * QueryDivider, then the query. `context` is what the index query returned (None when it
   * failed); subscripting None raises, as do a missing or non-string text.
   */
  function AugmentedQuery(context: Option<seq<Match>>, query: string): (r: Result<string, Error>)
    ensures context.None? ==> r == Failure(NoContext)
    ensures r.Success? <==> context.Some? && AllTexts(context.value)
    ensures r.Success? ==> r.value == Join(ContextSeparator, TextsOf(context.value)) + QueryDivider + query
    ensures context.Some? && MatchTexts(context.value).Failure? ==>
              r == Failure(MatchTexts(context.value).error)
    ensures context.Some? && MatchTexts(context.value).Success? && AsStrings(MatchTexts(context.value).value).Failure? ==>
              r == Failure(AsStrings(MatchTexts(context.value).value).error)
  {
    match context
    case None => Failure(NoContext)
    case Some(matches) =>
      match MatchTexts(matches)
      case Failure(e) => Failure(e)
      case Success(values) =>
        match AsStrings(values)
        case Failure(e) => Failure(e)
        case Success(contexts) =>
          assert contexts == TextsOf(matches);
          Success(Join(ContextSeparator, contexts) + QueryDivider + query)
  }

  /** Whatever was retrieved, a successful prompt ends with the divider and the raw query. */
  lemma AugmentedQueryEndsWithQuery(context: Option<seq<Match>>, query: string)
    requires AugmentedQuery(context, query).Success?
    ensures var p := AugmentedQuery(context, query).value;
      |QueryDivider + query| <= |p| && p[|p| - |QueryDivider + query|..] == QueryDivider + query
  {
  }

  /** With no matches the prompt is the divider followed by the query, nothing else. */
  lemma AugmentedQueryWithoutMatches(query: string)
    ensures AugmentedQuery(Some([]), query) == Success(QueryDivider + query)
  {
    var r := AugmentedQuery(Some([]), query);
    assert AllTexts([]);
    assert TextsOf([]) == [];
    assert r.value == Join(ContextSeparator, []) + QueryDivider + query;
    assert Join(ContextSeparator, []) + QueryDivider == QueryDivider;
  }

  /** One more match adds its text at the end of the contexts, behind one separator. */
  lemma AugmentedQueryAppendsMatch(matches: seq<Match>, m: Match, query: string)
    requires matches != [] && AllTexts(matches)
    requires TextKey in m.metadata && m.metadata[TextKey].Str?
    ensures AllTexts(matches + [m])
    ensures AugmentedQuery(Some(matches + [m]), query) ==
      Success(Join(ContextSeparator, TextsOf(matches)) + ContextSeparator + m.metadata[TextKey].s
              + QueryDivider + query)
  {
    assert forall i :: 0 <= i < |matches| ==> matches[i] == (matches + [m])[i];
    assert TextsOf(matches + [m]) == TextsOf(matches) + [m.metadata[TextKey].s];
    JoinAppend(ContextSeparator, TextsOf(matches), [m.metadata[TextKey].s]);
  }
}
