/** gpt.py: the prompt sent to the language model, the recovery of a JSON
    array from its reply, and the parse-or-empty tail of
    `smart_product_search`. The completion call, `json.loads` and the
    formatting of floats are function parameters. */
module Gpt {
  import opened Wrappers
  import opened Text
  import opened Models
  import opened Catalog

  // -------------------------------------------------------------- extractor

  /** The primary pattern of `extract_json_from_response`: six backticks in
      a row, with no capture group. */
  const Fence: string := "``````"

  /** `match.group(1)` on a pattern without groups raises IndexError. */
  datatype ExtractError = NoSuchGroup

  /** The first index at or after `from` holding `c`. */
  function Find(s: string, c: char, from: nat): (r: Option<nat>)
    ensures r.Some? ==> from <= r.value < |s| && s[r.value] == c
    ensures r.Some? ==> forall j | from <= j < r.value :: s[j] != c
    ensures r.None? ==> forall j | from <= j < |s| :: s[j] != c
    decreases |s| - from
  {
    if from >= |s| then None
    else if s[from] == c then Some(from)
    else Find(s, c, from + 1)
  }

  /** `extract_json_from_response`. With six backticks in the reply the
      first search matches and `group(1)` fails. Otherwise the result is the
      span from the first `[` to the first `]` after it, or "" if there is
      none: a non-empty result starts with `[`, ends with `]`, holds no
      other `]`, and is always a contiguous part of the reply. */
  function ExtractJson(response: string): (r: Result<string, ExtractError>)
    ensures r.Failure? <==> Contains(response, Fence)
    ensures r.Success? ==> Contains(response, r.value)
    ensures r.Success? && r.value != [] ==>
      && |r.value| >= 2 && r.value[0] == '[' && r.value[|r.value| - 1] == ']'
      && forall j | 0 <= j < |r.value| - 1 :: r.value[j] != ']'
  {
    if Contains(response, Fence) then Failure(NoSuchGroup)
    else
      assert OccursAt(response, "", 0);
      match Find(response, '[', 0)
      case None => Success("")
      case Some(i) =>
        match Find(response, ']', i + 1)
        case None => Success("")
        case Some(j) =>
          assert OccursAt(response, response[i..j + 1], i);
          Success(response[i..j + 1])
  }

  /** `response[i..j+1]` matches the fallback pattern `\[.*?\]` (with
      DOTALL, `.` also matches newlines). */
  predicate BracketSpan(s: string, i: int, j: int) {
    0 <= i < j < |s| && s[i] == '[' && s[j] == ']'
  }

  /** Without the fence, `ExtractJson` is exactly the match `re.search`
      returns for `\[.*?\]`: the leftmost start, then the shortest span;
      and "" exactly when the pattern matches nowhere. */
  lemma ExtractIsLeftmostShortestMatch(response: string)
    requires !Contains(response, Fence)
    ensures var r := ExtractJson(response).value;
      && (r == [] <==> forall i, j :: !BracketSpan(response, i, j))
      && (r != [] ==> exists i, j :: && BracketSpan(response, i, j) && r == response[i..j + 1]
                                     && forall i', j' | BracketSpan(response, i', j') :: i < i' || (i == i' && j <= j'))
  {
    var r := ExtractJson(response).value;
    match Find(response, '[', 0)
    case None =>
    case Some(i) =>
      match Find(response, ']', i + 1)
      case None =>
        assert forall i', j' :: !BracketSpan(response, i', j');
      case Some(j) =>
        assert BracketSpan(response, i, j);
  }

  // ----------------------------------------------------------------- prompt

  const PromptIntro: string :=
    "Ты — помощник покупателя, который понимает опечатки и ищет максимально выгодные товары.\n"

  /** The field names the reply is asked to use. */
  const RequestedFields: string := "name, company, price, distance"

  const RankingRequest: string :=
    "\n Отсортируй подходящие товары от самого выгодного и близкого до самого не выгодного. Учитывай опечатки, похожие слова (напр. солоко = молоко), также покажи подходящие по смыслу или из той же категории(например молочные продукты) с низким приоритетом.\n"

  const FormatRequest: string := "Верни результат в формате JSON, как список объектов с полями "

  const PromptOutro: string := RankingRequest + FormatRequest + RequestedFields + ".\n"

  /** The opening of the prompt: the assistant's role, then the query. */
  function Header(query: string): (r: string)
    ensures PromptIntro <= r
    ensures Contains(r, query)
  {
    ContainsSelf(query);
    ContainsAppendLeft(PromptIntro + "Пользователь ищет: ", query, query);
    ContainsAppendRight(PromptIntro + "Пользователь ищет: " + query, "\n", query);
    ContainsAppendRight(PromptIntro + "Пользователь ищет: " + query + "\n", "Вот список товаров:\n", query);
    PromptIntro + "Пользователь ищет: " + query + "\n" + "Вот список товаров:\n"
  }

  /** The labels of a candidate's block. */
  const NameLabel: string := ") Название: "
  const CompanyLabel: string := "\n   Компания: "
  const PriceLabel: string := "\n   Цена: "
  const DistanceLabel: string := " руб.\n   Расстояние: "
  const DistanceUnit: string := " км\n"

  /** The numbered block for one candidate: it starts with its number and
      carries the product name, company name, price and distance.
      `showPrice` is `str(float)`, `show2` the `:.2f` format. */
  function Line(idx: nat, item: Hit, showPrice: real -> string, show2: real -> string): (r: string)
    ensures NatToString(idx) <= r
    ensures |r| > |NatToString(idx)| + |item.product.name| + |item.company.name|
    ensures Contains(r, item.product.name) && Contains(r, item.company.name)
    ensures Contains(r, showPrice(item.product.price)) && Contains(r, show2(item.distance))
  {
    var name, company := item.product.name, item.company.name;
    var price, distance := showPrice(item.product.price), show2(item.distance);
    var head := NatToString(idx) + NameLabel;
    var distancePart := DistanceLabel + distance + DistanceUnit;
    var pricePart := PriceLabel + price + distancePart;
    var companyPart := CompanyLabel + company + pricePart;
    ContainsSelf(name);
    ContainsWithin(head, name, companyPart, name);
    ContainsSelf(company);
    ContainsWithin(CompanyLabel, company, pricePart, company);
    ContainsAppendLeft(head + name, companyPart, company);
    ContainsSelf(price);
    ContainsWithin(PriceLabel, price, distancePart, price);
    ContainsAppendLeft(CompanyLabel + company, pricePart, price);
    ContainsAppendLeft(head + name, companyPart, price);
    ContainsSelf(distance);
    ContainsWithin(DistanceLabel, distance, DistanceUnit, distance);
    ContainsAppendLeft(PriceLabel + price, distancePart, distance);
    ContainsAppendLeft(CompanyLabel + company, pricePart, distance);
    ContainsAppendLeft(head + name, companyPart, distance);
    head + name + companyPart
  }

  /** `block(1, items[0]) + … + block(n, items[n - 1])`: one block per
      item, numbered from 1 in list order. */
  function Numbered(items: seq<Hit>, block: (nat, Hit) -> string): string {
    if items == [] then ""
    else Numbered(items[..|items| - 1], block) + block(|items|, items[|items| - 1])
  }

  /** `Line` as a block function for `Numbered`. */
  function LineBlock(showPrice: real -> string, show2: real -> string): (nat, Hit) -> string {
    (idx: nat, item: Hit) => Line(idx, item, showPrice, show2)
  }

  /** The blocks of all candidates, numbered 1..n in list order; there is
      text exactly when there are candidates. */
  function Lines(items: seq<Hit>, showPrice: real -> string, show2: real -> string): (r: string)
    ensures r == [] <==> items == []
  {
    Numbered(items, LineBlock(showPrice, show2))
  }

  /** The whole prompt: it opens with the header naming the query and
      closes with the ranking and format instructions. */
  function Prompt(query: string, items: seq<Hit>, showPrice: real -> string, show2: real -> string): (r: string)
    ensures Header(query) <= r
    ensures |r| >= |PromptOutro| && r[|r| - |PromptOutro|..] == PromptOutro
  {
    Header(query) + Lines(items, showPrice, show2) + PromptOutro
  }

  /** The prompt-building loop of `smart_product_search`. */
  method BuildPrompt(query: string, items: seq<Hit>, showPrice: real -> string, show2: real -> string)
    returns (prompt: string)
    ensures prompt == Prompt(query, items, showPrice, show2)
  {
    prompt := PromptIntro;
    prompt := prompt + "Пользователь ищет: " + query + "\n";
    prompt := prompt + "Вот список товаров:\n";
    AppendEmpty(prompt);
    for idx := 1 to |items| + 1
      invariant prompt == Header(query) + Lines(items[..idx - 1], showPrice, show2)
    {
      var item := items[idx - 1];
      assert items[..idx][..idx - 1] == items[..idx - 1];
      AppendAssoc(Header(query), Lines(items[..idx - 1], showPrice, show2), Line(idx, item, showPrice, show2));
      prompt := prompt + Line(idx, item, showPrice, show2);
    }
    assert items[..|items|] == items;
    assert prompt == Header(query) + Lines(items, showPrice, show2);
    prompt := prompt + PromptOutro;
  }

  /** The first k blocks, then block k+1 for item k, begin the blocks
      of all items. */
  lemma {:induction false} NumberedInOrder(items: seq<Hit>, k: nat, block: (nat, Hit) -> string)
    requires k < |items|
    ensures Numbered(items[..k], block) + block(k + 1, items[k]) <= Numbered(items, block)
    decreases |items|
  {
    var n := |items|;
    var init := items[..n - 1];
    if k == n - 1 {
      assert init == items[..k];
    } else {
      NumberedInOrder(init, k, block);
      assert init[..k] == items[..k] && init[k] == items[k];
      PrefixAppend(Numbered(items[..k], block) + block(k + 1, items[k]), Numbered(init, block), block(n, items[n - 1]));
    }
  }

  /** The blocks come in list order: the blocks of the first k candidates,
      followed by the block numbered k+1 for candidate k, begin the text of
      all blocks. */
  lemma LinesInOrder(items: seq<Hit>, k: nat, showPrice: real -> string, show2: real -> string)
    requires k < |items|
    ensures Lines(items[..k], showPrice, show2) + Line(k + 1, items[k], showPrice, show2)
            <= Lines(items, showPrice, show2)
  {
    NumberedInOrder(items, k, LineBlock(showPrice, show2));
  }

  /** Each candidate's block, with its own number, appears in the prompt;
      different candidates get different numbers. */
  lemma LineInPrompt(query: string, items: seq<Hit>, k: nat, showPrice: real -> string, show2: real -> string)
    requires k < |items|
    ensures Contains(Prompt(query, items, showPrice, show2), Line(k + 1, items[k], showPrice, show2))
  {
    var before := Lines(items[..k], showPrice, show2);
    var line := Line(k + 1, items[k], showPrice, show2);
    var all := Lines(items, showPrice, show2);
    LinesInOrder(items, k, showPrice, show2);
    PrefixSplit(before + line, all);
    ContainsSelf(line);
    ContainsWithin(before, line, all[|before + line|..], line);
    ContainsWithin(Header(query), all, PromptOutro, line);
  }

  /** The prompt names the search query and asks for objects with the
      fields name, company, price and distance. */
  lemma PromptMentionsQueryAndFields(query: string, items: seq<Hit>, showPrice: real -> string, show2: real -> string)
    ensures Contains(Prompt(query, items, showPrice, show2), query)
    ensures Contains(Prompt(query, items, showPrice, show2), RequestedFields)
  {
    var lines := Lines(items, showPrice, show2);
    ContainsAppendRight(Header(query), lines, query);
    ContainsAppendRight(Header(query) + lines, PromptOutro, query);

    ContainsSelf(RequestedFields);
    ContainsAppendLeft(RankingRequest + FormatRequest, RequestedFields, RequestedFields);
    ContainsAppendRight(RankingRequest + FormatRequest + RequestedFields, ".\n", RequestedFields);
    ContainsAppendLeft(Header(query) + lines, PromptOutro, RequestedFields);
  }

  // ---------------------------------------------------------------- outcome

  datatype SearchError =
    | TransportError                  // the completion request failed
    | ExtractFailed(e: ExtractError)  // raised by the extractor, outside the try

  /** `json.loads(json_text)` inside try/except: a parse failure gives the
      empty list instead of an exception. */
  function ParseOrEmpty<J>(jsonText: string, parse: string -> Option<seq<J>>): (r: seq<J>)
    ensures parse(jsonText).Some? ==> r == parse(jsonText).value
    ensures parse(jsonText).None? ==> r == []
  {
    match parse(jsonText)
    case Some(v) => v
    case None => []
  }

  /** What `smart_product_search` returns for a given model reply: it
      raises exactly when the reply holds the fence, and otherwise gives
      the extracted text parsed, or the empty list. */
  function ReplyOutcome<J>(response: string, parse: string -> Option<seq<J>>): (r: Result<seq<J>, SearchError>)
    ensures r.Failure? <==> Contains(response, Fence)
    ensures r.Failure? ==> r.error == ExtractFailed(NoSuchGroup)
    ensures r.Success? ==> r.value == ParseOrEmpty(ExtractJson(response).value, parse)
  {
    match ExtractJson(response)
    case Failure(e) => Failure(ExtractFailed(e))
    case Success(text) => Success(ParseOrEmpty(text, parse))
  }

  /** A reply without the fence never raises: it gives the parsed array, or
      the empty list when parsing fails. */
  lemma ReplyWithoutFenceNeverFails<J>(response: string, parse: string -> Option<seq<J>>)
    requires !Contains(response, Fence)
    ensures ReplyOutcome(response, parse).Success?
    ensures parse(ExtractJson(response).value).None? ==> ReplyOutcome(response, parse) == Success([])
  {
  }

  /** A reply with no bracketed span gives the empty list, since
      `json.loads('')` fails. */
  lemma ReplyWithoutArrayIsEmpty<J>(response: string, parse: string -> Option<seq<J>>)
    requires !Contains(response, Fence)
    requires forall i, j :: !BracketSpan(response, i, j)
    requires parse("").None?
    ensures ReplyOutcome(response, parse) == Success([])
  {
    ExtractIsLeftmostShortestMatch(response);
  }

  /** `smart_product_search`: builds the prompt, asks the model, extracts and
      parses the reply. A failed request propagates. */
  method SmartProductSearch<J>(productList: seq<Hit>, searchQuery: string,
                               showPrice: real -> string, show2: real -> string,
                               complete: string -> Option<string>, parse: string -> Option<seq<J>>)
    returns (r: Result<seq<J>, SearchError>)
    ensures var reply := complete(Prompt(searchQuery, productList, showPrice, show2));
      && (reply.None? ==> r == Failure(TransportError))
      && (reply.Some? ==> r == ReplyOutcome(reply.value, parse))
  {
    var prompt := BuildPrompt(searchQuery, productList, showPrice, show2);
    var response := complete(prompt);
    if response.None? {
      return Failure(TransportError);
    }
    var extracted := ExtractJson(response.value);
    if extracted.Failure? {
      return Failure(ExtractFailed(extracted.error));
    }
    var topProducts := match parse(extracted.value) case Some(v) => v case None => [];
    r := Success(topProducts);
  }
}
