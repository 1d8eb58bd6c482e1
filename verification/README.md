# Product search assistant — Dafny model

This project models the core of a small product-search assistant. The assistant keeps a catalog of vendors and their products. It finds products whose name contains a search term, joins each one to its vendor, and scores it as price plus ten roubles per kilometre of distance. It then shows the three cheapest. It also ingests a vendor's price list, builds a prompt for a language model over the hits, and pulls a JSON array out of the model's reply.

Modules, one per source file or group:

- `Models` (models.dfy): `Product` and `Company` records, their `to_dict` dictionaries, and the `User` class (models/*.py).
- `Catalog` (catalog.dfy): the `PriceManager` of main.py. It covers the search, the score, the top-3 ranking, the ingestion loop of `add_company_price`, and the location fallback. The two JSON files are the fields `companies` and `products`.
- `Gpt` (gpt.dfy): `extract_json_from_response`, the prompt loop, and the parse-or-empty tail of `smart_product_search`.
- `FileParser` (file_parser.dfy): the row loop of `parse_excel_file` over an abstract worksheet.
- `Text`, `Wrappers`: `strip`, substring, `replace` and `str(int)`; `Option` and `Result`.

Some things outside the program are passed in as function parameters:

- `str.lower`, geocoding and geodesic distance;
- `float(...)` and the formatting of floats;
- the completion request and `json.loads`.

Prices, distances and scores are exact reals.

Points where the code behaves in a way a reader might not expect, and which the model follows:

- `smart_product_search` returns the parsed list as it is. Nothing maps the model's reply back to catalog records or re-sorts it.
- The distance weight is the constant 10 (main.py:182), not a parameter.
- The extractor's first pattern is six backticks with no capture group (gpt.py:9). So `group(1)` raises whenever a reply contains six backticks in a row. The raise happens outside the `try`, so it propagates. The model returns `Failure(ExtractFailed(NoSuchGroup))`.

## Model

| member | source | states |
|---|---|---|
| `Models.Product.ToDict` | models/product.py:10-16 | the dictionary has exactly the keys id, name, price, company_id, and reading it back gives the same product, so each value is the field it came from |
| `Models.ProductDictRoundTrip` | models/product.py:10-16 | a dictionary with exactly the product keys that reads back as a product is that product's `to_dict` |
| `Models.NewCompany` | models/company.py:4-8 | the constructor stores id, name, address and location unchanged |
| `Models.Company.ToDict` | models/company.py:10-16 | keys are id, name, address, plus location when present, passed through unchanged; reading the dictionary back gives the same company |
| `Models.NewCompanyKeys` | models/company.py:10-16 | a constructed company serialises to exactly the keys id, name, address, location |
| `Models.CompanyDictRoundTrip` | models/company.py:10-16 | a dictionary with only company keys that reads back as a company is that company's `to_dict` |
| `Models.User.constructor` | models/user.py:4-6 | address and location are stored as given |
| `Models.User.SetLocation` | models/user.py:8-10 | afterwards address and location are the arguments; nothing else is modified; the new state does not depend on the old one, so a repeated call changes nothing |
| `Catalog.UserLocation` | main.py:50-58 | the geocoded coordinates when geocoding succeeds, otherwise the fixed coordinates (55.7558, 37.6173) |
| `Catalog.PriceManager.constructor` | main.py:44-48 | the user address is the default Moscow address, and the location is that address geocoded or the fallback |
| `Catalog.PriceManager.SetUserLocation` | main.py:73-93 | if the "city, street" address geocodes, both address and location are set from it; otherwise only the location changes, to the manual coordinates; the catalog is untouched |
| `Catalog.AddressOf` | main.py:103-106 | the company address is the stripped city, then `, `, then the stripped street, and nothing else |
| `Catalog.Score` | main.py:181-183 | the score is never below the price for a non-negative distance, and equals the price exactly when the distance is 0 |
| `Catalog.ScoreMonotone` | main.py:181-183 | the score price + 10·distance never decreases when price or distance grows, and grows strictly when either does |
| `Catalog.FindCompany` | main.py:175 | returns nothing exactly when no company has the id; otherwise the company at the first index with that id |
| `Catalog.FindNumberedCompany` | main.py:175 | when company ids are 1..n in list order, the lookup of id k finds the k-th company |
| `Catalog.PriceManager.SearchProducts` | main.py:159-192 | the loop's result equals `Search` over the current catalog and user location: the term is lowered then stripped, and an empty term gives no hits |
| `Catalog.Search` | main.py:161-192 | a term that is empty after lower and strip gives `[]`, whatever the catalog; otherwise there are at most as many hits as products |
| `Catalog.HitFor` | main.py:173-190 | a product has a hit exactly when some company has its company id and the first such company has a location; the hit then joins that product, that company, the distance from its location and score = price + distance·10 |
| `Catalog.Hits` | main.py:171-192 | at most one hit per product, so no more hits than products |
| `Catalog.HitsSound` | main.py:172-190 | every hit is a listed product whose lowered name contains the term. Its company is the first with the product's company id and has a location. The distance comes from that location, and score = price + distance·10 |
| `Catalog.HitsComplete` | main.py:172-190 | every product that matches the term and whose first matching company has a location contributes such a hit |
| `Catalog.HitsExcludeUnlocated` | main.py:175-176 | a product with no matching company, or whose company lacks a location, has no hit |
| `Catalog.HitsAppend` | main.py:171-192 | the hits of two concatenated product lists are the hits of the first followed by those of the second, so hits keep the product list's order |
| `Catalog.SortByScore` | main.py:200 | the sorted list is a permutation of the hits (same length, same multiset) |
| `Catalog.SortByScoreSorted` | main.py:200 | the sorted list is in ascending score order |
| `Catalog.SortByScoreStable` | main.py:200 | the sort is stable: for every score, the hits with that score keep their input order |
| `Catalog.BestOptions` | main.py:200-205 | exactly min(3, n) hits are shown, and they are taken from the hits with multiplicity (the shown multiset is contained in the hits' multiset) |
| `Catalog.BestOptionsShape` | main.py:200-205 | the shown hits are in ascending score order |
| `Catalog.BestOptionsMinimal` | main.py:200-205 | every hit left out, counted with multiplicity (an element of the hits' multiset minus the shown multiset), scores no lower than every shown hit |
| `Catalog.BestOptionsStable` | main.py:200-205 | among shown hits of equal score, the input order is kept: they are the first ones of that score in the input |
| `Catalog.BestOptionsEmpty` | main.py:195-197 | an empty hit list shows nothing |
| `Catalog.LocationOr` | main.py:110-116 | the geocoded vendor location, or the manually typed coordinates when geocoding fails |
| `Catalog.ReadProducts` | main.py:131-149 | the loop stops at the first name whose lowercase is `стоп`. It reports whether one was found. If so, the products list grows by exactly the `Entered` products |
| `Catalog.EnteredIdAt` | main.py:139-145 | the k-th new product has id = product count before the loop + 1 + k, and its company_id is the new company's id |
| `Catalog.Entered` | main.py:131-149 | at most one product is added per entry read |
| `Catalog.StopWordPadded` | main.py:132-133 | a name line that is `стоп` with any whitespace around it ends the loop, whatever the price line holds, as long as lowering leaves `стоп` unchanged |
| `Catalog.FirstStop` | main.py:131-134 | the index where the loop stops reading lies between the start and the end of the input |
| `Catalog.FirstStopSpec` | main.py:131-134 | the loop's stopping point is the first entry whose stripped, lowered name is `стоп`: every earlier entry is not a stop word |
| `Catalog.HasStopFirstStop` | main.py:131-134 | the input contains a stop word exactly when the first stopping point lies inside it |
| `Catalog.EnteredTakesParsable` | main.py:136-145 | an entry whose price parses appends the product (next id, stripped name, parsed price, new company's id), and reading goes on with the next entry and the next id |
| `Catalog.EnteredSkipsUnparsable` | main.py:136-149 | an entry whose price does not parse adds nothing, and reading goes on with the next entry under the same next id |
| `Catalog.EnteredStopsAtStopWord` | main.py:132-134 | nothing is added from the stop word on |
| `Catalog.PriceManager.AddCompanyPrice` | main.py:95-153 | with a stop word, exactly one company is appended, with id = len(companies)+1 and location geocoded or manual. The entered products are appended after the old ones, which stay unchanged. Without one the input fails and nothing is saved. The user's address and location are untouched |
| `Catalog.NewCompanyFor` | main.py:119-124 | the new vendor has id = len(companies)+1, the typed name and address, and its location stored as the list [lat, lon] |
| `Catalog.AddKeepsNumbering` | main.py:119-145 | lists numbered 1..n stay numbered 1..n, and the search's company lookup resolves every new product to the new company |
| `Catalog.NewDictsMatchModels` | main.py:119-144 | the dictionaries main.py writes for a new company and product are `Company.to_dict` and `Product.to_dict` of the same values, with the same key sets |
| `Gpt.ExtractJson` | gpt.py:7-16 | fails exactly when the reply contains six backticks in a row. Otherwise the result is a contiguous part of the reply. A non-empty result starts with `[`, ends with `]` and holds no other `]`, so nested arrays are cut at the first inner `]` |
| `Gpt.ExtractIsLeftmostShortestMatch` | gpt.py:13-15 | without the fence, the result is the leftmost-then-shortest match of `\[.*?\]` across newlines, and "" exactly when there is no `[` with a `]` after it |
| `Gpt.Header` | gpt.py:21-23 | the prompt opening starts with the assistant's role text and contains the search query |
| `Gpt.Line` | gpt.py:26-29 | a candidate's block starts with its number and contains the product name, the company name, the formatted price and the formatted distance |
| `Gpt.Lines` | gpt.py:25-29 | the candidates' text is empty exactly when there are no candidates |
| `Gpt.Prompt` | gpt.py:21-32 | the prompt starts with the header naming the query and ends with the ranking and format instructions |
| `Gpt.NumberedInOrder` | gpt.py:25-29 | for any block function, the first k numbered blocks followed by block k+1 begin the numbered blocks of the whole list |
| `Gpt.BuildPrompt` | gpt.py:21-32 | the loop builds exactly `Prompt`: the header, then the candidates' blocks numbered 1..n in list order, then the instructions |
| `Gpt.LinesInOrder` | gpt.py:25-29 | the blocks of candidates 1..k are followed by the block for candidate k+1, carrying number k+1 |
| `Gpt.LineInPrompt` | gpt.py:25-29 | every candidate's block, with its name, company name, price and distance, appears in the prompt |
| `Text.NatToStringInjective` | gpt.py:25-26 | different candidates get different numbers in the prompt |
| `Gpt.PromptMentionsQueryAndFields` | gpt.py:21-32 | the prompt contains the search query and asks for objects with the fields name, company, price, distance |
| `Gpt.ParseOrEmpty` | gpt.py:42-46 | the parsed array when parsing succeeds, `[]` when it fails |
| `Gpt.ReplyOutcome` | gpt.py:41-47 | the tail fails exactly when the reply contains six backticks in a row, and then with `NoSuchGroup`; otherwise it is parse-or-`[]` of the extracted text |
| `Gpt.ReplyWithoutFenceNeverFails` | gpt.py:41-47 | a reply without the fence never raises, and a parse failure gives `[]` |
| `Gpt.ReplyWithoutArrayIsEmpty` | gpt.py:14-46 | with no `[`…`]` span, the extracted text is `''`, which does not parse, so the result is `[]` |
| `Gpt.SmartProductSearch` | gpt.py:19-47 | a failed request propagates. Otherwise the reply goes through the extractor, whose failure propagates, and then parse-or-`[]` |
| `FileParser.CellString` | services/file_parser.py:17-19 | `str` of a cell: a text cell is its own text, a number goes through the float formatter, and an empty cell reads `None` |
| `FileParser.PriceText` | services/file_parser.py:19 | the text given to the float parser has the same length, every `,` becomes `.`, no `,` is left, and every other character is unchanged |
| `FileParser.RowEntry` | services/file_parser.py:16-26 | an entry, when there is one, has a non-empty name that is already stripped and a nonzero price |
| `FileParser.RowEntrySpec` | services/file_parser.py:16-22 | a row with fewer than two cells gives nothing. Otherwise it gives an entry exactly when the price parses, the stripped name is non-empty and the price is nonzero. Negative prices are kept |
| `FileParser.ParseRows` | services/file_parser.py:11-27 | the loop over `rows[1:]` yields exactly the entries of the data rows, and skips unparsable prices without failing |
| `FileParser.EntriesAppend` | services/file_parser.py:15-27 | the entries of concatenated rows are those of the first part followed by those of the second, so row order is kept |
| `FileParser.EntriesComplete` | services/file_parser.py:15-26 | every row that yields an entry has that entry in the output |
| `FileParser.SheetEntriesComplete` | services/file_parser.py:14-26 | every data row after the header that yields an entry, negative prices included, has that entry in what the sheet returns |
| `FileParser.EntriesSound` | services/file_parser.py:16-26 | every entry has a non-empty, already stripped name and a nonzero price, and comes from one of the rows |
| `FileParser.Entries` | services/file_parser.py:15-27 | at most one entry per row |
| `FileParser.SheetEntries` | services/file_parser.py:14-27 | no more entries than rows after the header |
| `FileParser.SheetEntriesSpec` | services/file_parser.py:14-27 | each entry comes from a row after the first and is named and priced as a row entry must be. The first row's content never matters |
| `Text.Strip` | services/file_parser.py:17 | the stripped text is no longer than the input and neither starts nor ends with whitespace |
| `Text.StripSpec` | services/file_parser.py:17 | the stripped text occurs in the input with only whitespace before and after it |
| `Text.StripIdempotent` | main.py:132 | stripping a stripped name changes nothing |
| `Text.StripPadded` | main.py:132 | whitespace around a text with no whitespace at its ends is exactly what `strip` removes, so `strip` gives back that text |
| `Text.StripRangeOfPadded` | services/file_parser.py:17 | the converse of `StripSpec`: a part of the input with only whitespace around it and none at its own ends is the stripped text |
| `Text.ContainsSelf` | main.py:173 | the substring test `t in s` holds for `t in t` |
| `Text.ContainsWithin` | main.py:173 | what `s` contains, `a + s + b` contains too |
| `Text.ReplaceChar` | services/file_parser.py:19 | `replace` of one character keeps the length and changes exactly the occurrences of that character |
| `Text.NatToString` | gpt.py:26 | `str(idx)` is a non-empty string of decimal digits with no leading zero |
| `Text.NatToStringRoundTrip` | gpt.py:26 | reading the digits back gives the number |

## Left out

- Console input, `print`, the menu (`main_menu`), `view_all_companies` and its formatting: the typed product lines are the parameter `entries`.
- Reading and writing the JSON files (main.py:60-71, utils/data_storage.py): the catalog is the manager's `companies` and `products` fields, and saving is assigning them.
- Stored records are typed (`Product`, `Company`). A record missing `name`, `price`, `company_id` or `id` raises `KeyError` in the source; that case is not modelled. A company lacking `location` is modelled (`location == None`).
- Python's `1 == 1.0` between int and float ids is not modelled; ids are integers.
- Geocoding over the network and geodesic distance are function parameters. A malformed stored location that makes `geodesic` raise is not modelled.
- `float(...)` parsing and float formatting (`str`, `:.2f`) are function parameters. Floating-point rounding is not modelled: prices, distances and scores are exact reals.
- `str.lower` is a parameter. `str.strip` is modelled over ASCII whitespace only, while Python also strips other Unicode whitespace.
- The `ValueError` raised when manually typed coordinates do not parse (main.py:90-91, 114-115): the manual coordinates are a parameter.
- The language-model request (gpt.py:34-38): the parameter `complete` returns `None` for a transport failure. `json.loads` is the parameter `parse`; the model assumes that what it parses is a list.
- gui.py, including the `PriceManager` methods it calls that main.py does not define.
- Mapping the language model's reply back to catalog records: the code does not do it, so neither does the model.
