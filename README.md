# qa-regulations: a verified model of the ingestion and retrieval glue

The repository ingests PDF regulations into a vector index and answers questions about them
with a chat model. Most of it calls other services: the PDF reader, the text splitter, the
embedding models, the vector index, the chat model, S3 and Textract. This project models the
deterministic logic between those calls:

- **Page text** (`get_text_from_pdf`). The extracted page texts are appended in page order with
  no separator. `Processes.GetTextFromPdf` is the loop. `Strings.Concat` is its specification.
- **Upsert records** (`create_records_to_upsert`, `create_vector_from_documents_to_upsert`).
  - Each chunk gets the id `"{code}-{token}"` and a copy of the document metadata whose `text`
    is that chunk.
  - The ids and metadata are then zipped with the embeddings. `zip` stops at the shortest
    list, so surplus chunks or embeddings are dropped without an error.
  - `Processes.CreateRecordsToUpsert` is the loop. `Processes.Assembled` is its recursive
    specification, and the lemmas about it state the properties.
  - The documents variant takes each document's page content and builds the same records.
- **Augmented prompt** (`get_response`, lines 175-176). The `text` of every match is taken in
  ranking order and the texts are joined with `"\n\n---\n\n"`. Then `"\n\n-----\n\n"` and the raw
  query are appended.
- **Metadata form** (`get_metadata`).
  - The year choices run from 1900 to the current year. The day choices run from 1 to 31.
  - `empty_keys` holds the metadata keys whose value is `""` or `None`, and the warning shows
    how many there are (data_loader.py:55-59).
  - When no value is empty, the function returns the storage file name
    `{genre-code}#{year}#{code}#{theme-code}#{status-code}.pdf`.

Modelling choices:

- Embedding vectors are an opaque type parameter `E`.
- Each `uuid4()` call is replaced by the next string of an input sequence `tokens`. The loop
  draws one token per chunk, even when `zip` later drops the record, so the model requires
  `|chunks| <= |tokens|`.
- Dictionary values are `Values.Value`: a str, an int or None. An f-string inserts them as
  `Values.Format`, which is Python's `str()`.
- Python dictionaries become Dafny maps, which are values. So the input metadata is visibly
  never changed; in the source `{**metadata, ...}` builds a new dictionary too.
- Exceptions that the modelled lines raise become `Failure` results:
  - a `KeyError` for a missing `code`, raised only when there is at least one chunk;
  - a `KeyError` for a match without `text`;
  - a `TypeError` from `join` when a text is not a str;
  - a `TypeError` when the index query returned `None`.
- The Streamlit widgets of `get_metadata` become a `DataLoader.Form` value. A select box
  offers the keys of its dictionary, so a selected key is required to be one of them. The
  clock becomes the `currentYear` parameter.

Behaviour of the code worth knowing:

- A chunk/embedding count mismatch is not rejected: `zip` truncates to the shorter list
  (utils/processes.py:226).
- A `None` query result is not turned into a query-only prompt: `context['matches']` raises
  TypeError (utils/processes.py:175), modelled as `Failure(NoContext)`.

## Model

| member | source | states |
|---|---|---|
| `Processes.GetTextFromPdf` | utils/processes.py:32-41 | the returned text is the concatenation of the page texts in page order |
| `Processes.PageTextLayout` | utils/processes.py:38-41 | page k sits between the text of the earlier pages and the text of the later pages, with nothing inserted |
| `Strings.ConcatAppend` | utils/processes.py:38-41 | the text of pages xs followed by pages ys is the text of xs followed by the text of ys |
| `Processes.CreateRecordsToUpsert` | utils/processes.py:206-226 | raises KeyError('code') exactly when there is a chunk and the metadata has no code; otherwise returns the records of `Assembled` |
| `Processes.Zip` | utils/processes.py:226 | zip has the length of its shortest input, and item i holds the i-th element of each input |
| `Processes.RecordId` | utils/processes.py:221 | the id starts with str(code) and "-", and the token follows |
| `Processes.WithText` | utils/processes.py:222-225 | the record metadata has the input keys plus 'text'; 'text' is the chunk, overriding any earlier 'text'; every other key keeps its value |
| `Processes.Assembled` | utils/processes.py:218-226 | there are min(len(chunks), len(embeddings)) records |
| `Processes.AssembledRecords` | utils/processes.py:218-226 | record i pairs the i-th token's id, embeddings[i] and chunks[i], in input order |
| `Processes.AssembledCountWhenLengthsAgree` | utils/processes.py:220-226 | N chunks and N embeddings give exactly N records |
| `Processes.AssembledIdsCarryCode` | utils/processes.py:221 | every id starts with str(metadata['code']) + "-", and its rest is that record's token |
| `Processes.AssembledMetadata` | utils/processes.py:222-225 | every record's metadata keeps the input's keys and values, except 'text', which is that record's chunk |
| `Processes.AssembledIdsDistinct` | utils/processes.py:221 | pairwise distinct tokens give pairwise distinct ids |
| `Processes.CreateVectorFromDocumentsToUpsert` | utils/processes.py:229-250 | same error condition, and the same records as create_records_to_upsert on the documents' page contents |
| `Processes.MatchTexts` | utils/processes.py:175 | one value per match in match order; otherwise a KeyError naming the first match without 'text' |
| `Processes.AsStrings` | utils/processes.py:176 | join accepts the texts exactly when all are str; otherwise a TypeError naming the first one that is not |
| `Processes.AugmentedQuery` | utils/processes.py:171-176 | a None context raises; the prompt exists exactly when every match has a str text; the prompt is the texts joined by the separator, then the divider, then the query; otherwise the KeyError for the first match without text, or else the TypeError for the first non-str text, comes back unchanged |
| `Processes.AugmentedQueryEndsWithQuery` | utils/processes.py:176 | every prompt ends with "\n\n-----\n\n" followed by the query |
| `Processes.AugmentedQueryWithoutMatches` | utils/processes.py:175-176 | zero matches give exactly "\n\n-----\n\n" + query |
| `Processes.AugmentedQueryAppendsMatch` | utils/processes.py:175-176 | one more match appends one separator and its text after the earlier contexts, so contexts follow match order |
| `Strings.JoinAppend` | utils/processes.py:176 | joining two non-empty lists puts exactly one separator where they meet |
| `Strings.SplitJoin` | data_loader.py:62 | splitting at '#' recovers the '#'-joined fields when none contains '#' |
| `Values.IntToStringRoundTrip` | data_loader.py:62 | the year's decimal text reads back as the year, with a minus sign exactly for negatives |
| `DataLoader.Range` | data_loader.py:11-12 | range(lo, hi) holds the integers lo to hi-1 in increasing order, and nothing else |
| `DataLoader.YearOptions` | data_loader.py:10-11 | the year choices are exactly 1900..current year, increasing; the default index 71 is 1971 |
| `DataLoader.DayOptions` | data_loader.py:12 | the day choices are exactly 1..31 in increasing order, so the default (index 0) is day 1 |
| `DataLoader.MetadataOf` | data_loader.py:43-53 | the metadata dictionary has exactly the nine form keys |
| `DataLoader.EmptyKeys` | data_loader.py:55-56 | a key is listed exactly when it is a metadata key whose value is "" or None, and no key is listed twice |
| `DataLoader.EmptyKeysOfForm` | data_loader.py:55-57 | the listed keys are the set of empty keys, and the warning count is that set's size |
| `DataLoader.CompleteIffNoEmptyValue` | data_loader.py:43-56 | no metadata value is empty exactly when every select box chose a non-empty key and title, dependency and code are non-empty |
| `DataLoader.GetMetadata` | data_loader.py:43-63 | a file name is returned exactly when the form is complete; it is genre code, year, code, theme code and status code, joined by '#', followed by ".pdf" |
| `DataLoader.EmptyValueBlocksFileName` | data_loader.py:55-63 | any empty value, the dependency and the title included, means no file name |
| `DataLoader.FileNameRoundTrip` | data_loader.py:62 | the file name ends in ".pdf", and its stem splits at '#' into the five fields when no field contains '#' |

## Left out

- Chunking (utils/processes.py:44-63) delegates to LangChain text splitters, whose code is not part of this model. Chunks are an input.
- Embedding (utils/processes.py:66-88, 253-289) calls external models that produce floating-point vectors. Vectors are opaque.
- Pinecone (utils/processes.py:91-155) covers index creation, readiness polling with `time.sleep`, upsert, namespace deletion and query. These are network calls. The query is an `Option` input to `Processes.AugmentedQuery`.
- In `pinecone_get_context`, `results` is never assigned when the index is not ready, so line 155 raises instead of returning None. This path is not modelled.
- The OpenAI chat call and its fixed `primer` prompt (utils/processes.py:177-203) are left out: a foreign call and a constant.
- S3, HTTP and Textract helpers (utils/processes.py:292-372) are I/O wrappers.
- `upsert_files_pinecone` and `create_vector_for_pinecone` (utils/processes.py:374-441) only chain extraction, splitting, embedding, record assembly and the upsert; they are glue around the modelled steps.
- PDF reading (utils/processes.py:36-37) is left out. The page texts are an input, so reader and page-extraction exceptions are not modelled.
- `uuid4()` randomness is left out. Its results are the input `tokens`, so the claim that two assemblies of the same document never collide is not modelled.
- The `get_metadata` widgets and messages are left out: Streamlit rendering, `st.warning` and `st.success`.
- The select boxes' `index=1` default (genre, theme) fails on a dictionary with exactly one key. This is not modelled. An empty dictionary gives `None`, which the model covers.
- The Streamlit pages and session state (app.py, stream.py, data_processor.py, pages/) are UI glue.
- tests/test_main.py patches a module that does not exist and states nothing about this logic.
