# pokechat core, modelled in Dafny

pokechat is a chat front end in which a language model answers Pokémon questions by
calling tools. This project models the parts of it that are plain logic.

- **The client stream decoder** (`StreamDecoder`, app/chat/page.tsx). The chat page reads
  the server's event stream into a `buffer` and cuts it at `"\n\n"` into records. From
  each record it keeps the last `event:` and `data:` lines, trimmed. It parses the
  payload and folds the event into four accumulators:
  - `assistantContent`;
  - the ledger of tool calls, where a result is attached to the earliest unresolved call
    of the same tool;
  - the kept tool results, where a result is kept only when `ok` and `data` are both
    truthy;
  - the error banner.

  On `done` with no text, the message gets a placeholder chosen by the first kept
  result's tool name. `Decoder` is the reader state as a class, and `Feed` is one read.
  `JSON.parse` together with the dispatch on `type` is a parameter `parse`.
- **The PokéAPI tool** (`PokeApiCache`, `PokeApi`, lib/tools/pokeapi.ts).
  - The cache is a `Map` with insertion order. It holds entries for five minutes, strictly,
    and at most 200 of them. A hit moves its key to the most recent end. When the map
    grows past the bound, the oldest key is evicted.
  - The normalisers reshape the fetched JSON: base stats, sprite choice, type and ability
    names, and the pre-order flattening of the evolution tree.
  - `getPokemonNormalized` caches under the un-lowercased input.
  - `execute` turns every failure into `{ ok: false, error }`.

  The fetches are a parameter (`Network`) and so is the clock.
- **Input validation** (`ToolSchemas`, lib/schemas/tools.ts). The two zod schemas become
  acceptance functions over a JSON value type, with their defaults. The two JSON schemas
  are shown to accept exactly the same objects.
- **The tool registry** (`ToolRegistry`, lib/tools/index.ts). It is a first-match lookup
  by exact name. `ListTools` and `GetToolByName` model the shipped code, whose registry
  is empty. `IntendedRegistry` and `IntendedLookup` model the registry the tests and the
  chat page expect, with both tools under their underscore names. The registry as
  shipped is empty (see Findings).
- **Two card components** (`PokemonCard`, `TypeEffectiveness`).
  - PokemonCard: the evolution roots, the stat total, the stat-bar colour, the padded id
    and the type badge fallback.
  - TypeEffectivenessCard: the three effectiveness buckets and the indicator's colour and
    label.

Support modules:
- `Wrappers`: `Option` and `Result`.
- `Seqs`: `filter` and `reduce`.
- `JsText`: the JavaScript string built-ins used.
- `JsValue`: JSON values with JavaScript truthiness. An object is a list of members, and
  a lookup sees the last binding of a key, as `JSON.parse` keeps it.
- `JsonSchema`: the JSON Schema subset the tool schemas use.
- `ChatTypes`: types/chat.ts.

The chat page's decoder departs from the server-sent-events format in these ways, and the
model follows the code:
- A record is skipped only when its `event:` or `data:` value is empty. Dispatch is on
  the payload's `type`, not on the tag.
- Field values are trimmed whole, and the last `data:` line wins rather than the lines
  being joined.

## Model

| member | source | states |
|---|---|---|
| StreamDecoder.IndexOfDelimiterFrom | app/chat/page.tsx:98 | the scan behind `indexOf`: a result is a delimiter at or after the start with none between; none means no delimiter from the start on |
| StreamDecoder.IndexOfDelimiter | app/chat/page.tsx:98 | `buffer.indexOf("\n\n")`: the result is the first delimiter position; it is none exactly when the buffer holds no delimiter |
| StreamDecoder.FrameSound | app/chat/page.tsx:97-100 | the records cut from a buffer, each followed by `"\n\n"`, then the leftover, give back the buffer; the leftover holds no delimiter; every record is free of delimiters |
| StreamDecoder.FrameUnique | app/chat/page.tsx:97-100 | framing is the only way to cut a text into delimiter-free records plus a delimiter-free tail |
| StreamDecoder.FrameAppend | app/chat/page.tsx:93-100 | framing a buffer that grew gives the records framed before, then those framed from the old leftover plus the new text |
| StreamDecoder.FrameStep | app/chat/page.tsx:98-100 | one pass of the inner loop takes the text before the first delimiter as the next record and continues after the delimiter |
| StreamDecoder.FrameDone | app/chat/page.tsx:98 | with no delimiter left, no record is cut and the whole buffer stays |
| StreamDecoder.LastFieldWins | app/chat/page.tsx:104-107 | the trimmed value of the last line starting with the field prefix is the one read |
| StreamDecoder.LastFieldAbsent | app/chat/page.tsx:102-107 | a record without such a line reads as the empty string |
| StreamDecoder.ScanFields | app/chat/page.tsx:101-107 | the `for` loop over the record's lines computes the last `event:` and `data:` values |
| StreamDecoder.FindUnresolved | app/chat/page.tsx:130 | `findIndex`: the earliest call with that tool name and no result; none exactly when no call qualifies |
| StreamDecoder.Resolve | app/chat/page.tsx:130-133 | the ledger keeps its length; only the earliest unresolved call of the tool gets the result, and every other call is unchanged |
| StreamDecoder.ProcessRecordsAppend | app/chat/page.tsx:98-161 | folding two runs of records is folding the first, then the second |
| StreamDecoder.RecordsCarryEvents | app/chat/page.tsx:108-110 | folding records is folding the events they carry; records with an empty field or an unparsable payload contribute nothing |
| StreamDecoder.MalformedRecordSkipped | app/chat/page.tsx:158-160 | a record whose payload does not parse is dropped and the later records are still folded |
| StreamDecoder.ReceiveTwice | app/chat/page.tsx:93-100 | two reads leave the same buffer and accumulators as one read of both chunks |
| StreamDecoder.ChunkingInvariant | app/chat/page.tsx:93-100 | however the stream is split into reads, the buffer and the fold end up the same as for a single read |
| StreamDecoder.ContentIsDeltas | app/chat/page.tsx:111-112 | `assistantContent` is the in-order concatenation of all text deltas |
| StreamDecoder.LedgerGrowsByCalls | app/chat/page.tsx:118-133 | the ledger has one entry per `tool_call`, appended in order and never removed; entries keep name and input, and an attached result is never replaced |
| StreamDecoder.ResultsAreKept | app/chat/page.tsx:135-136 | the kept results grow by exactly the `tool_result` events whose `ok` and `data` are truthy, in order |
| StreamDecoder.NoticeIsLastError | app/chat/page.tsx:143-144 | the banner holds the message of the last `error`, and folding goes on after it |
| StreamDecoder.ShownIsTextOrPlaceholder | app/chat/page.tsx:145-156 | at every point the message shows either the accumulated text or, only while no text has arrived and a result has been kept, the placeholder for the first kept result's tool; the placeholder never enters `assistantContent` |
| StreamDecoder.DoneShowsPlaceholder | app/chat/page.tsx:145-156 | after `done` the message is the placeholder for the first kept result's tool exactly when no text arrived and some result was kept, and the streamed text in every other case |
| StreamDecoder.FieldsOfEncoded | app/chat/page.tsx:101-107 | a record written as `event: <tag>\ndata: <payload>` reads back as that tag and payload |
| StreamDecoder.EventOfEncoded | app/chat/page.tsx:108-110 | such a record carries exactly what its payload parses to |
| StreamDecoder.DecodeEncoded | app/chat/page.tsx:93-161 | a stream of well-formed records, read in any chunking, leaves an empty buffer and the fold of the parsed payloads in order |
| StreamDecoder.Decoder.constructor | app/chat/page.tsx:78-82 | the reader starts with an empty buffer and empty accumulators |
| StreamDecoder.Decoder.Feed | app/chat/page.tsx:94-161 | one read appends the chunk and folds every complete record; the new state is the specification function `Receive` of the old one, and the buffer keeps no complete record |
| StreamDecoder.Drain | app/chat/page.tsx:98-161 | the inner loop leaves the framing leftover, which holds no delimiter, and the fold of all framed records |
| StreamDecoder.HandleRecord | app/chat/page.tsx:101-110 | one record is handled as the specification function `ProcessRecord` says |
| StreamDecoder.HandleEvent | app/chat/page.tsx:111-157 | the `if`/`else if` chain on `evt.type`, with the result attached in place, agrees with `ApplyEvent` |
| JsText.Split | app/chat/page.tsx:101 | `split("\n")` yields at least one piece and no piece contains the separator |
| JsText.JoinSplit | app/chat/page.tsx:101 | joining the pieces with the separator gives back the text |
| JsText.FirstNonSpace | app/chat/page.tsx:105-106 | the leading white space `trim()` drops: every skipped character is white space and the one it stops at is not |
| JsText.EndOfText | app/chat/page.tsx:105-106 | the trailing white space `trim()` drops: every dropped character is white space and the last one kept is not |
| JsText.TrimIsMiddle | app/chat/page.tsx:105-106 | `trim()` removes exactly the leading and trailing white space |
| JsText.AsciiLower | lib/tools/pokeapi.ts:86 | `toLowerCase()` on ASCII: same length, each capital becomes its lower-case letter (code plus 32), every other character is unchanged, and no capital is left |
| JsText.EncodeUriComponent | lib/tools/pokeapi.ts:87 | the output has only unreserved characters and `%XX` escapes; a text of unreserved characters is unchanged |
| JsText.Utf8RoundTrip | lib/tools/pokeapi.ts:87 | the UTF-8 bytes the escapes are made of decode back to the character, and the lead byte announces their number |
| JsText.UriRoundTrip | lib/tools/pokeapi.ts:87 | `decodeURIComponent` of the encoding gives back the text: a reserved character becomes the escapes of its UTF-8 bytes and nothing is lost, so different names give different URLs |
| JsText.NatToStringRoundTrip | lib/tools/pokeapi.ts:82 | `String(id)` of a non-negative integer denotes that integer |
| JsText.PadStart | app/components/PokemonCard.tsx:89 | `padStart`: the text ends the result, which has at least the width, filled in front |
| JsValue.Coalesce | lib/tools/pokeapi.ts:50-55 | `??` keeps a value that is neither `null` nor `undefined`, and gives the default for exactly those two |
| ToolSchemas.ParsePokemonRef | lib/schemas/tools.ts:5 | an accepted `pokemon` is a non-empty string or a non-negative integer |
| ToolSchemas.ParseFlag | lib/schemas/tools.ts:6 | `includeEvolution` is accepted exactly when missing or boolean, and a boolean is kept |
| ToolSchemas.ParseTypeList | lib/schemas/tools.ts:10 | an accepted `opponentTypes` is a non-empty array of non-empty strings, kept in order |
| ToolSchemas.ParseTopK | lib/schemas/tools.ts:11 | an accepted `topK` lies in 1..10 |
| ToolSchemas.GetPokemonAccepts | lib/schemas/tools.ts:4-7 | an object is accepted if and only if `pokemon` is a non-empty string or a non-negative integer and `includeEvolution` is missing or boolean; missing means false |
| ToolSchemas.MoveRecommenderAccepts | lib/schemas/tools.ts:9-12 | an object is accepted if and only if `opponentTypes` is a non-empty array of non-empty strings and `topK` is missing or an integer in 1..10; missing means 5 |
| ToolSchemas.PokemonRefSchemaAgrees | lib/schemas/tools.ts:23-29 | the `anyOf` of `minLength 1` string and `minimum 0` integer accepts exactly the values the zod union accepts |
| ToolSchemas.GetPokemonSchemaAgrees | lib/schemas/tools.ts:20-37 | the JSON schema accepts exactly the objects zod accepts that have no other members |
| ToolSchemas.MoveRecommenderSchemaAgrees | lib/schemas/tools.ts:39-52 | the same for the move recommender's schema |
| ToolSchemas.TypeListSchemaAgrees | lib/schemas/tools.ts:42-46 | the array schema accepts exactly the lists `z.array(z.string().min(1)).min(1)` accepts |
| ToolSchemas.TopKSchemaAgrees | lib/schemas/tools.ts:48 | a present `topK` conforms to the integer schema exactly when zod accepts it |
| ToolSchemas.AnyOfTwo | lib/schemas/tools.ts:24-27 | `anyOf` with two options accepts what either option accepts |
| ToolSchemas.GetPokemonRoundTrip | lib/schemas/tools.ts:4-7 | a valid argument record written as JSON parses back to itself and conforms to the JSON schema |
| ToolSchemas.TypeListRoundTrip | lib/schemas/tools.ts:10 | a list of non-empty type names, written as a JSON array, parses back to itself |
| ToolSchemas.MoveRecommenderRoundTrip | lib/schemas/tools.ts:9-12 | valid move recommender arguments written as JSON parse back to themselves |
| ToolSchemas.MoveRecommenderValueConforms | lib/schemas/tools.ts:39-52 | that JSON object conforms to the registered JSON schema |
| ToolSchemas.GetPokemonExamples | tests/schemas.test.ts:6-32 | the test vectors: a name, an id, and a name with the flag are accepted, with `includeEvolution` defaulting to false |
| ToolSchemas.GetPokemonRejections | tests/schemas.test.ts:34-47 | the test vectors: `""`, `-1` and a missing `pokemon` are rejected |
| ToolSchemas.MoveRecommenderExamples | tests/schemas.test.ts:51-71 | the test vectors: two types are accepted with `topK` defaulting to 5, and an explicit `topK` is kept |
| ToolSchemas.MoveRecommenderRejections | tests/schemas.test.ts:73-102 | the test vectors: an empty list, an empty type name and a missing `opponentTypes` are rejected |
| ToolSchemas.TopKOutOfRange | tests/schemas.test.ts:85-97 | the test vectors: `topK` 0 and 11 are rejected |
| PokeApiCache.WithoutKeeps | lib/tools/pokeapi.ts:24 | deleting a key from the order removes exactly that key and keeps the others distinct and in order |
| PokeApiCache.JsMap.constructor | lib/tools/pokeapi.ts:18 | the map starts empty |
| PokeApiCache.JsMap.Get | lib/tools/pokeapi.ts:21 | `get` finds a value exactly when the key is present, and returns the stored value |
| PokeApiCache.JsMap.Delete | lib/tools/pokeapi.ts:24 | `delete` removes the key from the entries and the order |
| PokeApiCache.JsMap.Set | lib/tools/pokeapi.ts:28 | `set` stores the value; a new key goes to the end of the order and an existing key keeps its place |
| PokeApiCache.GetCache | lib/tools/pokeapi.ts:20-30 | the cache and the result are those of the specification function `CacheGet` |
| PokeApiCache.SetCache | lib/tools/pokeapi.ts:32-38 | the cache is that of the specification function `CacheSet` |
| PokeApiCache.MapOpsKeepWellFormed | lib/tools/pokeapi.ts:18 | `delete` and `set` keep the order and the entries in step, and change the size by the expected amount |
| PokeApiCache.MissLeavesCache | lib/tools/pokeapi.ts:21-22 | an absent key gives undefined and changes nothing |
| PokeApiCache.ExpiryIsStrict | lib/tools/pokeapi.ts:23-26 | an entry is deleted and missed only when the clock is strictly past `expiresAt`; at `expiresAt` it is still served |
| PokeApiCache.HitMovesToEnd | lib/tools/pokeapi.ts:27-29 | a hit returns the stored value, keeps every entry, and moves the key to the most recent end with the other keys in their order |
| PokeApiCache.OldestExists | lib/tools/pokeapi.ts:35 | a non-empty map has a first key, and it is stored |
| PokeApiCache.SetKeepsBound | lib/tools/pokeapi.ts:32-38 | from at most 200 entries, `setCache` stays within 200, stores the value with `expiresAt = now + 300000`, and keeps the map well formed |
| PokeApiCache.EvictOldest | lib/tools/pokeapi.ts:34-37 | past the bound, the evicted key is the oldest one, not the key just set, and the map returns to 200 entries |
| PokeApiCache.SetThenGet | lib/tools/pokeapi.ts:14-38 | a value set at `t1` is served at any `t2 <= t1 + 300000` |
| PokeApi.Elements | lib/tools/pokeapi.ts:48 | `for...of` over an array walks its elements |
| PokeApi.MapBaseStats | lib/tools/pokeapi.ts:46-57 | the loop builds the `lookup` of the specification function `StatLookup`, or throws where it does |
| PokeApi.FaultPersists | lib/tools/pokeapi.ts:48 | once an element throws, the later elements do not change the outcome |
| PokeApi.MissingStatIsZero | lib/tools/pokeapi.ts:49-56 | a stat no element names reads as 0 |
| PokeApi.LastStatWins | lib/tools/pokeapi.ts:48-56 | a stat reads as the `base_stat` of the last element naming it, or 0 when that is nullish |
| PokeApi.PickSprite | lib/tools/pokeapi.ts:59-65 | official artwork if truthy, else `front_default` if truthy, else `null`; the result is never a falsy non-null value |
| PokeApi.NamesAreTruthyInOrder | lib/tools/pokeapi.ts:93-94 | the type or ability names are exactly the truthy `.name` values, in order |
| PokeApi.Flatten | lib/tools/pokeapi.ts:72-75 | the flattening starts with the node's own entry |
| PokeApi.Visit | lib/tools/pokeapi.ts:72-75 | the recursive `visit` appends exactly the pre-order flattening of the subtree to `result` |
| PokeApi.GetEvolutionChain | lib/tools/pokeapi.ts:67-78 | the chain is the pre-order flattening of the tree |
| PokeApi.ParentPrecedes | lib/tools/pokeapi.ts:72-76 | every entry after the first is listed in the `evolvesTo` of an earlier entry |
| PokeApi.ChildrenFollow | lib/tools/pokeapi.ts:72-75 | every name in an entry's `evolvesTo` is the name of a later entry |
| PokeApi.CacheKey | lib/tools/pokeapi.ts:82 | the key is the input as given, then `"|"`, then `1` or `0`; it is never empty |
| PokeApi.CacheKeyInjective | lib/tools/pokeapi.ts:82 | equal keys mean the same spelled input and the same flag |
| PokeApi.GetPokemonNormalized | lib/tools/pokeapi.ts:80-111 | the outcome, fetch count and new cache are those of the specification function `Lookup`: invalid input throws and touches nothing; a cache hit (`CacheGet`) returns the cached record with no fetch; a miss returns what `Uncached` fetches, and only a success is stored through `CacheSet` |
| PokeApi.Complete | lib/tools/pokeapi.ts:89-107 | after normalising: a failure is returned after one fetch; otherwise the chain is attached only when requested, as `Completed` says |
| PokeApi.FetchEvolution | lib/tools/pokeapi.ts:99-106 | the species and chain fetches, as `Evolution` says: a missing chain URL or a failed fetch leaves the chain out |
| PokeApi.FetchNormalized | lib/tools/pokeapi.ts:86-107 | the miss path: its result and fetch count are those of the specification function `Uncached` |
| PokeApi.Execute | lib/tools/pokeapi.ts:118-126 | the outcome and the new cache are those of `Lookup` on the input; `ok` holds exactly when it succeeded, with the record as `data`; a failure becomes `{ ok: false, error: message }` |
| PokeApi.EvolutionFailureIsHarmless | lib/tools/pokeapi.ts:99-107 | a failed species fetch leaves the chain out and the lookup still succeeds |
| PokeApi.FullLookupFetchesThree | lib/tools/pokeapi.ts:99-107 | with the chain requested and every fetch answering, three fetches are made and the flattened chain is attached |
| PokeApi.HttpFailureMessage | lib/tools/pokeapi.ts:42 | a non-2xx answer fails with `HTTP <status> fetching <url>` |
| PokeApi.LookupKeepsBound | lib/tools/pokeapi.ts:82-109 | the read and the write of one lookup keep the cache within 200 non-empty keys |
| PokeApi.RepeatIsCached | lib/tools/pokeapi.ts:82-84 | a repeat call with the same input within five minutes is served from the cache |
| PokeApi.LookupKeepsInvariant | lib/tools/pokeapi.ts:80-111 | every lookup, whatever the input and the network's answers, leaves the cache well formed, within 200 entries and without empty keys |
| PokeApi.RepeatLookupIsCached | lib/tools/pokeapi.ts:80-84 | after a lookup that fetched and succeeded, the same input within five minutes of the write returns the same record with no fetch, whatever the network would answer |
| PokeApi.CreatePokeTools | lib/tools/pokeapi.ts:113-129 | one tool, named `pokeapi.getPokemon`, which is not the name the chat page compares against, with the schema of the lookup's arguments |
| ToolRegistry.FindTool | lib/tools/index.ts:9-11 | `find`: the first specification with that exact name; none exactly when no name matches |
| ToolRegistry.FindRegistered | lib/tools/index.ts:9-11 | with unique names, a registered name finds its own specification |
| ToolRegistry.ShippedRegistryFindsNothing | lib/tools/index.ts:3 | as shipped, the registry is empty and every lookup is undefined |
| ToolRegistry.ListTools | lib/tools/index.ts:3-7 | `listTools()` returns the shipped array, which is empty |
| ToolRegistry.GetToolByName | lib/tools/index.ts:9-11 | the found tool has the name asked for and is listed; none exactly when no listed tool has the name |
| ToolRegistry.IntendedRegistry | tests/tool-registry.test.ts:5-15 | the intended registry: the two shipped tools, renamed `pokeapi_get_pokemon` and `advice_move_recommender`, with unique, non-empty names and descriptions |
| ToolRegistry.IntendedLookup | tests/tool-registry.test.ts:17-32 | a lookup there finds the tool with that exact name, and none exactly when neither tool has it |
| ToolRegistry.RegistryLookups | tests/tool-registry.test.ts:17-32 | in the intended registry both tools are found by exact name, and an unknown name finds nothing |
| ToolRegistry.ShippedNameGetsTypePlaceholder | lib/tools/pokeapi.ts:115 | under the shipped name, a Pokémon result gets the type-effectiveness placeholder |
| ToolRegistry.RegisteredNameGetsPokemonPlaceholder | app/chat/page.tsx:148-150 | under the intended name, it gets the Pokémon placeholder |
| ToolRegistry.CreateMoveRecommenderTool | lib/tools/move-recommender.ts:3-13 | the move recommender's specification carries the shipped name `advice.moveRecommender`, which is not the name the chat page tests for; its description is non-empty and its `{}` schema accepts every value |
| ToolRegistry.CardFor | app/chat/page.tsx:227-232 | the card is picked by exact tool name and truthy data: the Pokémon card exactly for `pokeapi_get_pokemon`, the type-effectiveness card exactly for `advice_move_recommender`, and none exactly when the data is falsy or the name is neither |
| ToolRegistry.ShippedNamesGetNoCard | lib/tools/move-recommender.ts:5 | under the shipped names, no result of either tool gets a card from app/chat/page.tsx:227-232, the type-effectiveness card included |
| ToolRegistry.IntendedNamesGetTheirCards | app/chat/page.tsx:227-232 | under the intended names, a Pokémon result gets the Pokémon card and a move recommender result the type-effectiveness card |
| PokemonCard.ChildSetMeans | app/components/PokemonCard.tsx:77-78 | a name is in `allChildren` exactly when some entry lists it in `evolvesTo` |
| PokemonCard.KeepRootsIsFilter | app/components/PokemonCard.tsx:79 | keeping the roots is `filter` with the `has` test |
| PokemonCard.EvolutionDisplay | app/components/PokemonCard.tsx:74-81 | the nested loops and the filter give the specification function `Evolution`: nothing for no chain or an empty one |
| PokemonCard.RootsAreUnlisted | app/components/PokemonCard.tsx:76-79 | the roots are exactly the entries whose name no entry lists, all of them, in their original order |
| PokemonCard.FlattenedChainHasOneRoot | app/components/PokemonCard.tsx:76-79 | for a chain flattened from one tree with distinct names, the only root is the first entry |
| PokemonCard.TotalIsSumOfSix | app/components/PokemonCard.tsx:68 | the total is the sum of the six base stats |
| PokemonCard.StatBarColorByPercentage | app/components/PokemonCard.tsx:45-51 | the cross-multiplied thresholds pick the colour that `value / 255 * 100` picks: above 80 green, above 60 yellow, above 40 orange, else red |
| PokemonCard.StatBarMonotone | app/components/PokemonCard.tsx:47-51 | a higher stat never gets a lower colour |
| PokemonCard.IdLabel | app/components/PokemonCard.tsx:89 | the id's digits, padded with `0` in front to at least 3 characters |
| PokemonCard.IdLabelOfDigit | app/components/PokemonCard.tsx:89 | a single-digit id gets two leading zeros |
| PokemonCard.TypeBadgeColor | app/components/PokemonCard.tsx:115 | a type with no colour class falls back to `bg-gray-400` |
| TypeEffectiveness.BucketsAreExact | app/components/TypeEffectivenessCard.tsx:60-62 | each bucket holds every entry of its range (at least 2; exactly 1; between 0 and 1) and no other, in input order |
| TypeEffectiveness.BucketsAreDisjoint | app/components/TypeEffectivenessCard.tsx:60-62 | the buckets are pairwise disjoint, and an entry with a multiplier of at most 0, or strictly between 1 and 2, is in none |
| TypeEffectiveness.RenderedLabel | app/components/TypeEffectivenessCard.tsx:43-50 | the shown label: `4×` from 4 up, `2×` from 2 up, `1×`, `½×` and `¼×` for 1, 0.5 and 0.25, otherwise the number followed by `×`; every label ends in `×` |
| TypeEffectiveness.IndicatorMatchesBucket | app/components/TypeEffectivenessCard.tsx:36-62 | super-effective entries are green with `4×` or `2×`, neutral ones yellow with `1×`, not-very-effective ones orange, and the rest orange or red |
| TypeEffectiveness.LabelIsNumericExactly | app/components/TypeEffectivenessCard.tsx:43-50 | the label is the plain number exactly when the multiplier is below 2 and is not 1, 0.5 or 0.25 |

## Left out

- Network and time. `fetch`, `res.json()`, `TextDecoder`, `AbortController` and `Date.now()` are parameters or absent. The reads' byte decoding is modelled at the string level.
- React state. `setMessages`, `setLoading`, scrolling and rendering are not modelled. The message text is tracked by `shown` in the fold.
- Parsing. `JSON.parse` and the dispatch on `type` are the parameter `parse`. Zod's error texts and JavaScript engine messages are the parameter `engineText`.
- Server side. app/api/chat/route.ts, app/api/health/route.ts, lib/anthropic/stream.ts and lib/anthropic/client.ts are HTTP plumbing and SDK wrappers. lib/anthropic/stream.ts returns an empty stream that closes at once.
- The move recommender. Only its specification (`CreateMoveRecommenderTool`) is modelled. Its `execute` is a stub that always returns an empty list.
- Other components. app/components/ToolCallAccordion.tsx and the `typeColors` tables are not modelled. `TypeBadgeColor` takes the table as a parameter.
- Interleaving. Two lookups running at once can interleave at each `await`. The model runs each lookup to completion, with the clock read at `t0` for the cache read and `t1` for the write.
- Aliasing. The cached record is the same object the caller receives, so a caller that mutated it would change the cache. The model hands out values.
- Numbers. JSON numbers are exact reals, so floating-point rounding is absent.
- PokeApi.PropertyKey: a `stat.name` that is a number, array or object is not tracked as a key, although JavaScript stringifies it. An array `["hp"]` would write the `hp` stat.
- PokeApi.Network: the model receives a chain response as an evolution tree whose names are strings. lib/tools/pokeapi.ts:66-78 casts the response without checking it. A nullish `chain` or `species`, or an `evolves_to` that is not an array, makes `visit` throw, and the model counts that as a failed chain fetch. A node whose `species.name` is missing or not a string does not throw: the source attaches it with that name (for example `undefined` or `5`). The model, whose names are strings, does not represent that case.
- PokemonCard.StatBarColor: uses exact arithmetic and the fixed `max` of 255, the only one the card passes. At the boundary values 102, 153 and 204 the floating-point quotient may fall on either side.
- PokemonCard.IdLabel: takes the id as an integer.
- PokemonCard.TypeBadgeColor: does not model inherited object properties such as `constructor`, which a type name could hit.
- TypeEffectiveness.Render: leaves JavaScript's number-to-text conversion as a parameter.
- AsciiLower: lower-cases ASCII capitals only. `toLowerCase()` also lower-cases other scripts: `"É"` becomes `"é"`, and `"İ"` becomes two characters. The model leaves such letters as they are.
- PokeApi.PokemonUrl: inherits that gap. A name with a non-ASCII capital gets a different URL in the source than in the model.
- JsText.NatToString: writes every id in plain digits. `String(n)` switches to exponent notation from 10^21 on (`"1e+21"`), and the schema accepts such ids. Cache keys and URLs for those ids are not modelled.
- EncodeUriComponent: a Dafny string cannot hold a lone UTF-16 surrogate. In the source, a name such as the JSON string `"\ud800"` makes `encodeURIComponent` throw a URIError, and `execute` returns `ok: false`. The model has no such input.
- PokeApi.StatLookup: an element whose `stat.name` is `"__proto__"` is stored as an ordinary key. In the source, the assignment sets the lookup's prototype when `base_stat` is an object, and `lookup["hp"]` then reads that object's `hp`. `PokeApi.MissingStatIsZero` says `hp` reads 0 in that case.
- ToolSchemas.ParseFlag: applies the default (`false`, and `topK` 5) when the member is missing, as the tests expect. A `.default()` wrapped in `.optional()` may instead yield `undefined` in some zod versions. The cache key writes `0` for both.

## Findings

| source | as written | input that shows it | evidently intended | confidence | as-written member | corrected member |
|---|---|---|---|---|---|---|
| lib/tools/index.ts:3 | the registry is the empty array, so `listTools()` is empty and `getToolByName` finds nothing | `getToolByName("pokeapi_get_pokemon")` is undefined, while tests/tool-registry.test.ts:5-27 expects both tools | the registry holds the PokéAPI tool and the move recommender | not executed; high | ToolRegistry.ShippedRegistryFindsNothing | ToolRegistry.RegistryLookups |
| lib/tools/pokeapi.ts:115 | the tool is named `pokeapi.getPokemon`, but the chat page picks the Pokémon placeholder only for `pokeapi_get_pokemon` (app/chat/page.tsx:148), the name the tests also use | a stream holding one successful `tool_result` of `pokeapi.getPokemon`, then `done`, with no text: the message reads "Here's the type effectiveness analysis:" | the tool is registered as `pokeapi_get_pokemon` | not executed; high | ToolRegistry.ShippedNameGetsTypePlaceholder | ToolRegistry.RegisteredNameGetsPokemonPlaceholder |
| lib/tools/move-recommender.ts:5 | the move recommender is named `advice.moveRecommender`, but the chat page draws the type-effectiveness card only for `advice_move_recommender` (app/chat/page.tsx:230), the name tests/move-recommender.test.ts:8 and the tool call list also use | a kept `tool_result` of `advice.moveRecommender` with truthy data: no card is drawn under it | the tool is named `advice_move_recommender` | not executed; high | ToolRegistry.ShippedNamesGetNoCard | ToolRegistry.IntendedNamesGetTheirCards |
