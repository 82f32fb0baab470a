/**
 * The TVDB result formatter: a loosely-shaped search response becomes one
 * text report, a count line followed by one block of lines per record.
 *
 * Python raises (AttributeError or TypeError) when a value has a shape the
 * formatter does not expect: a response or record that is not a dict, a
 * "type" that is not a str, an overview or list field whose `len` or slice
 * does not exist, a dict entry whose "name" `", ".join` cannot take.  Each of
 * these is the error result `WrongShape`.
 */
module TvdbFormat {
  import opened Wrappers
  import opened PyText
  import opened PyValue

  datatype FormatError = WrongShape

  const NoResultsMessage: string := "No results found for the search query."
  const OverviewLimit: nat := 200
  const CompanyCap: nat := 3
  const GenreCap: nat := 5
  const NotAvailable: Json := JStr("N/A")

  function Min(a: nat, b: nat): nat { if a <= b then a else b }

  /** The first line of a report on `n` records; the joined report shows it followed by a blank line. */
  function CountLine(n: nat): string {
    "Found " + IntToString(n) + " results:\n"
  }

  /** `results.get("data") if results else None` */
  function DataOf(results: Json): (r: Result<Json, FormatError>)
    ensures !Truthy(results) ==> r == Ok(JNull)
    ensures Truthy(results) && !results.JObj? ==> r.Err?
  {
    if !Truthy(results) then Ok(JNull)
    else match results
      case JObj(entries) => Ok(Get(entries, "data"))
      case _ => Err(WrongShape)
  }

  /** An overview cut to its first 200 characters, marked with "..." when anything was cut. */
  function Truncated(s: string): (r: string)
    ensures |s| <= OverviewLimit ==> r == s
    ensures |s| > OverviewLimit ==> |r| == OverviewLimit + 3 && r[..OverviewLimit] == s[..OverviewLimit] && r[OverviewLimit..] == "..."
  {
    if |s| > OverviewLimit then s[..OverviewLimit] + "..." else s
  }

  /**
   * The overview line, if there is one.  A falsy overview has no line; a str
   * is truncated; a list is sliced to 200 elements and printed; a dict prints
   * whole if it has at most 200 keys, and slicing it raises otherwise; `len`
   * of a number raises.
   */
  function OverviewLine(overview: Json): (r: Result<Option<string>, FormatError>)
    ensures !Truthy(overview) ==> r == Ok(None)
    ensures r.Ok? ==> (r.value.Some? <==> Truthy(overview))
    ensures overview.JStr? && Truthy(overview) ==> r == Ok(Some("   - Overview: " + Truncated(overview.s)))
  {
    if !Truthy(overview) then Ok(None)
    else match overview
      case JStr(s) => Ok(Some("   - Overview: " + Truncated(s)))
      case JList(items) =>
        var text := if |items| > OverviewLimit then Repr(JList(items[..OverviewLimit])) + "..." else Repr(overview);
        Ok(Some("   - Overview: " + text))
      case JObj(entries) =>
        if |entries| > OverviewLimit then Err(WrongShape) else Ok(Some("   - Overview: " + Repr(overview)))
      case _ => Err(WrongShape)
  }

  /** One company or genre entry: a dict by its "name" (default "N/A"), which must be a str, anything else by `str()`. */
  function EntryName(entry: Json): Result<string, FormatError> {
    match entry
    case JObj(entries) =>
      (match GetOr(entries, "name", NotAvailable)
       case JStr(s) => Ok(s)
       case _ => Err(WrongShape))
    case _ => Ok(Str(entry))
  }

  /** `value[:cap]`, iterated: a list's first elements, a str's first characters; other values cannot be sliced. */
  function Slice(value: Json, cap: nat): (r: Result<seq<Json>, FormatError>)
    ensures value.JList? ==> r == Ok(value.items[..Min(cap, |value.items|)])
    ensures value.JStr? ==> r == Ok(seq(Min(cap, |value.s|), k requires 0 <= k < Min(cap, |value.s|) => JStr([value.s[k]])))
    ensures !value.JList? && !value.JStr? ==> r.Err?
  {
    match value
    case JList(items) => Ok(items[..Min(cap, |items|)])
    case JStr(s) => Ok(seq(Min(cap, |s|), k requires 0 <= k < Min(cap, |s|) => JStr([s[k]])))
    case _ => Err(WrongShape)
  }

  /** The rendered names of `entries`, in order; it fails exactly when one entry cannot be rendered. */
  function EntryNames(entries: seq<Json>): (r: Result<seq<string>, FormatError>)
    ensures r.Ok? <==> forall k :: 0 <= k < |entries| ==> EntryName(entries[k]).Ok?
    ensures r.Ok? ==> (|r.value| == |entries|
      && forall k :: 0 <= k < |entries| ==> EntryName(entries[k]) == Ok(r.value[k]))
  {
    if entries == [] then Ok([])
    else match EntryName(entries[0])
      case Err(e) => Err(e)
      case Ok(first) =>
        match EntryNames(entries[1..])
        case Err(e) => Err(e)
        case Ok(rest) => Ok([first] + rest)
  }

  /** A companies or genres line: absent for a falsy field, else `caption` and the first `cap` names joined by ", ". */
  function ListLine(caption: string, value: Json, cap: nat): (r: Result<Option<string>, FormatError>)
    ensures !Truthy(value) ==> r == Ok(None)
    ensures r.Ok? ==> (r.value.Some? <==> Truthy(value))
  {
    if !Truthy(value) then Ok(None)
    else match Slice(value, cap)
      case Err(e) => Err(e)
      case Ok(entries) =>
        match EntryNames(entries)
        case Err(e) => Err(e)
        case Ok(names) => Ok(Some(caption + Join(names, ", ")))
  }

  /** A list field shows exactly its first `cap` entries (all of them when there are fewer), in their original order. */
  lemma ListLineCapped(caption: string, items: seq<Json>, cap: nat)
    requires items != []
    requires forall k :: 0 <= k < Min(cap, |items|) ==> EntryName(items[k]).Ok?
    ensures var shown := Min(cap, |items|);
      ListLine(caption, JList(items), cap)
        == Ok(Some(caption + Join(seq(shown, k requires 0 <= k < shown => EntryName(items[k]).value), ", ")))
  {
    var shown := Min(cap, |items|);
    var names := EntryNames(items[..shown]);
    assert names.Ok?;
    assert names.value == seq(shown, k requires 0 <= k < shown => EntryName(items[k]).value);
  }

  function Optional(line: Option<string>): seq<string> {
    if line.Some? then [line.value] else []
  }

  /** The identifier shown: "tvdb_id" when truthy, otherwise "id" (whatever its value), otherwise "N/A". */
  function ShownId(entries: seq<(string, Json)>): Json {
    Or(Get(entries, "tvdb_id"), GetOr(entries, "id", NotAvailable))
  }

  /** The type shown: "type" (default "N/A") title-cased; a non-str type has no `title()`. */
  function ShownType(entries: seq<(string, Json)>): Result<string, FormatError> {
    match GetOr(entries, "type", NotAvailable)
    case JStr(s) => Ok(Title(s))
    case _ => Err(WrongShape)
  }

  function HeaderLine(index: nat, entries: seq<(string, Json)>, shownType: string): string {
    (IntToString(index) + ". **")
      + (Str(GetOr(entries, "name", NotAvailable)) + "** (" + shownType + ", " + Str(GetOr(entries, "year", NotAvailable)) + ")")
  }

  function IdLine(entries: seq<(string, Json)>): string {
    "   - TVDB ID: " + Str(ShownId(entries))
  }

  /** The block of lines for the record numbered `index`. */
  function FormatItem(index: nat, item: Json): (r: Result<seq<string>, FormatError>)
    ensures !item.JObj? ==> r.Err?
    ensures r.Ok? ==> 2 <= |r.value| <= 5
  {
    match item
    case JObj(e) =>
      (match ShownType(e)
       case Err(err) => Err(err)
       case Ok(shownType) =>
         match OverviewLine(Get(e, "overview"))
         case Err(err) => Err(err)
         case Ok(overview) =>
           match ListLine("   - Networks/Companies: ", Get(e, "companies"), CompanyCap)
           case Err(err) => Err(err)
           case Ok(companies) =>
             match ListLine("   - Genres: ", Get(e, "genres"), GenreCap)
             case Err(err) => Err(err)
             case Ok(genres) =>
               Ok([HeaderLine(index, e, shownType), IdLine(e)]
                  + Optional(overview) + Optional(companies) + Optional(genres)))
    case _ => Err(WrongShape)
  }

  function Count(b: bool): nat { if b then 1 else 0 }

  /** A field as the header shows it: its `str()` when the record has it, "N/A" otherwise. */
  function Shown(e: seq<(string, Json)>, key: string): string {
    if Lookup(e, key).Some? then Str(Lookup(e, key).value) else "N/A"
  }

  /**
   * The header of record `index`: its number, its name in bold, then its
   * title-cased type and its year in parentheses, each "N/A" when absent.
   */
  lemma HeaderShows(index: nat, e: seq<(string, Json)>)
    requires ShownType(e).Ok?
    ensures HeaderLine(index, e, ShownType(e).value)
      == (IntToString(index) + ". **")
         + (Shown(e, "name") + "** ("
            + (if Lookup(e, "type").Some? then Title(Lookup(e, "type").value.s) else "N/A")
            + ", " + Shown(e, "year") + ")")
  {
    TitleNotAvailable();
    ShownDefault(e, "name");
    ShownDefault(e, "year");
  }

  lemma ShownDefault(e: seq<(string, Json)>, key: string)
    ensures Shown(e, key) == Str(GetOr(e, key, NotAvailable))
  {
  }

  /** The default type "N/A" is unchanged by `title()`. */
  lemma TitleNotAvailable()
    ensures Title("N/A") == "N/A"
  {
    var na: string := "N/A";
    assert na[1..] == "/A" && "/A"[1..] == "A" && "A"[1..] == [];
    assert TitleFrom("A", false) == "A";
    assert TitleFrom("/A", true) == "/A";
    assert TitleFrom(na, false) == [UpperChar('N')] + TitleFrom("/A", true);
  }

  /** The identifier line shows "tvdb_id" when it is truthy, else "id" when the record has one, else "N/A". */
  lemma IdLineShows(e: seq<(string, Json)>)
    ensures IdLine(e) == "   - TVDB ID: " + (
      if Truthy(Get(e, "tvdb_id")) then Str(Get(e, "tvdb_id"))
      else if Lookup(e, "id").Some? then Str(Lookup(e, "id").value)
      else "N/A")
  {
  }

  /**
   * What a record's block holds: the numbered header, the identifier line,
   * then the overview, companies and genres lines, in that order, each present
   * exactly when its field is truthy.
   */
  lemma ItemBlock(index: nat, e: seq<(string, Json)>)
    requires FormatItem(index, JObj(e)).Ok?
    ensures ShownType(e).Ok?
    ensures var lines := FormatItem(index, JObj(e)).value;
      && lines[0] == HeaderLine(index, e, ShownType(e).value)
      && lines[1] == IdLine(e)
      && |lines| == 2 + Count(Truthy(Get(e, "overview"))) + Count(Truthy(Get(e, "companies")))
                      + Count(Truthy(Get(e, "genres")))
    ensures OverviewLine(Get(e, "overview")).Ok?
      && ListLine("   - Networks/Companies: ", Get(e, "companies"), CompanyCap).Ok?
      && ListLine("   - Genres: ", Get(e, "genres"), GenreCap).Ok?
    ensures FormatItem(index, JObj(e)).value[2..]
      == Optional(OverviewLine(Get(e, "overview")).value)
         + Optional(ListLine("   - Networks/Companies: ", Get(e, "companies"), CompanyCap).value)
         + Optional(ListLine("   - Genres: ", Get(e, "genres"), GenreCap).value)
  {
  }

  /** A companies or genres field that renders: falsy, or a list whose first `cap` entries have printable names. */
  predicate ListFieldRenders(value: Json, cap: nat) {
    !Truthy(value) || (value.JList? && forall k :: 0 <= k < Min(cap, |value.items|) ==> EntryName(value.items[k]).Ok?)
  }

  /** A record of the expected shape: a dict whose fields the formatter can all print. */
  predicate RecordRenders(item: Json) {
    && item.JObj?
    && (Lookup(item.entries, "type").None? || Lookup(item.entries, "type").value.JStr?)
    && (!Truthy(Get(item.entries, "overview")) || Get(item.entries, "overview").JStr?)
    && ListFieldRenders(Get(item.entries, "companies"), CompanyCap)
    && ListFieldRenders(Get(item.entries, "genres"), GenreCap)
  }

  /**
   * A record formats whenever its "type" is absent or a str, its overview is
   * falsy or a str, and its companies and genres render; missing fields are
   * not an error.
   */
  lemma FormatItemOk(index: nat, e: seq<(string, Json)>)
    requires RecordRenders(JObj(e))
    ensures FormatItem(index, JObj(e)).Ok?
  {
    var companies := Get(e, "companies");
    if Truthy(companies) {
      ListLineCapped("   - Networks/Companies: ", companies.items, CompanyCap);
    }
    var genres := Get(e, "genres");
    if Truthy(genres) {
      ListLineCapped("   - Genres: ", genres.items, GenreCap);
    }
  }

  /** A record with no fields at all formats as its header and ID line, every field "N/A". */
  lemma EmptyRecord(index: nat)
    ensures FormatItem(index, JObj([])) == Ok([HeaderLine(index, [], "N/A"), "   - TVDB ID: N/A"])
  {
    TitleNotAvailable();
    assert ShownType([]) == Ok("N/A");
    assert ShownId([]) == NotAvailable;
    assert IdLine([]) == "   - TVDB ID: N/A";
    assert Get([], "overview") == JNull && Get([], "companies") == JNull && Get([], "genres") == JNull;
    assert OverviewLine(JNull) == Ok(None);
    assert ListLine("   - Networks/Companies: ", JNull, CompanyCap) == Ok(None);
    assert ListLine("   - Genres: ", JNull, GenreCap) == Ok(None);
    var head := [HeaderLine(index, [], "N/A"), IdLine([])];
    assert head + Optional(None) + Optional(None) + Optional(None) == head;
  }

  /** The header of record `index` starts with its number. */
  lemma HeaderNumbered(index: nat, e: seq<(string, Json)>, shownType: string)
    ensures IntToString(index) + ". **" <= HeaderLine(index, e, shownType)
  {
  }

  /** How one record becomes its block of lines, given its number. */
  type ItemFormatter = (nat, Json) -> Result<seq<string>, FormatError>

  /**
   * The blocks `format` makes of `items`, item k numbered k + 1, in order;
   * Python raises, and so this fails, as soon as one record cannot be formatted.
   */
  function BlocksBy(format: ItemFormatter, items: seq<Json>): Result<seq<string>, FormatError> {
    if items == [] then Ok([])
    else
      match BlocksBy(format, items[..|items| - 1])
      case Err(e) => Err(e)
      case Ok(before) =>
        match format(|items|, items[|items| - 1])
        case Err(e) => Err(e)
        case Ok(block) => Ok(before + block)
  }

  /** The blocks of the records as `_format_item` writes them. */
  function Blocks(items: seq<Json>): Result<seq<string>, FormatError> {
    BlocksBy(FormatItem, items)
  }

  /** The whole formatted response, as `format_search_results` returns it. */
  function Report(results: Json): Result<string, FormatError> {
    match DataOf(results)
    case Err(e) => Err(e)
    case Ok(data) =>
      if !Truthy(data) then Ok(NoResultsMessage)
      else match data
        case JList(items) =>
          (match Blocks(items)
           case Err(e) => Err(e)
           case Ok(lines) => Ok(Join([CountLine(|items|)] + lines, "\n")))
        case _ => Err(WrongShape)
  }

  /** `format_search_results`: the count line, then each record's block appended in turn, joined by newlines. */
  method FormatSearchResults(results: Json) returns (r: Result<string, FormatError>)
    ensures r == Report(results)
  {
    var data := DataOf(results);
    if data.Err? {
      return Err(data.error);
    }
    if !Truthy(data.value) {
      return Ok(NoResultsMessage);
    }
    if !data.value.JList? {
      return Err(WrongShape);
    }
    var items := data.value.items;
    ReportOfList(results, items);
    var lines := ExtendWithBlocks([CountLine(|items|)], items, FormatItem);
    if lines.Err? {
      assert Blocks(items).Err?;
      return Err(WrongShape);
    }
    r := Ok(Join(lines.value, "\n"));
  }

  /** The loop of `format_search_results`: `lines.extend(format(index, item))` for each record in turn. */
  method ExtendWithBlocks(head: seq<string>, items: seq<Json>, format: ItemFormatter)
    returns (r: Result<seq<string>, FormatError>)
    ensures BlocksBy(format, items).Err? ==> r.Err?
    ensures BlocksBy(format, items).Ok? ==> r == Ok(head + BlocksBy(format, items).value)
  {
    var lines := head;
    var index := 1;
    assert items[..0] == [];
    while index <= |items|
      invariant 1 <= index <= |items| + 1
      invariant BlocksBy(format, items[..index - 1]).Ok?
      invariant lines == head + BlocksBy(format, items[..index - 1]).value
    {
      var block := format(index, items[index - 1]);
      assert items[..index][..index - 1] == items[..index - 1];
      if block.Err? {
        BlocksPrefixFails(format, items, index);
        return Err(block.error);
      }
      lines := lines + block.value;
      index := index + 1;
    }
    assert items[..|items|] == items;
    r := Ok(lines);
  }

  /** A response whose "data" is a non-empty list is reported as the count line followed by the records' blocks. */
  lemma ReportOfList(results: Json, items: seq<Json>)
    requires DataOf(results) == Ok(JList(items)) && items != []
    ensures Blocks(items).Err? ==> Report(results) == Err(WrongShape)
    ensures Blocks(items).Ok? ==> Report(results) == Ok(Join([CountLine(|items|)] + Blocks(items).value, "\n"))
  {
    assert Truthy(JList(items));
    if Blocks(items).Err? {
      assert Blocks(items).error == WrongShape;
    }
  }

  /** Once a prefix of the records fails to format, so does the whole list. */
  lemma {:induction false} BlocksPrefixFails(format: ItemFormatter, items: seq<Json>, n: nat)
    requires n <= |items| && BlocksBy(format, items[..n]).Err?
    ensures BlocksBy(format, items).Err?
  {
    if n < |items| {
      var init := items[..|items| - 1];
      assert init[..n] == items[..n];
      BlocksPrefixFails(format, init, n);
    } else {
      assert items[..n] == items;
    }
  }

  /** The blocks of a prefix of the records are a prefix of the blocks of all of them. */
  lemma {:induction false} BlocksByPrefix(format: ItemFormatter, items: seq<Json>, n: nat)
    requires n <= |items| && BlocksBy(format, items).Ok?
    ensures BlocksBy(format, items[..n]).Ok?
    ensures BlocksBy(format, items[..n]).value <= BlocksBy(format, items).value
  {
    if n < |items| {
      var init := items[..|items| - 1];
      assert init[..n] == items[..n];
      BlocksByPrefix(format, init, n);
    } else {
      assert items[..n] == items;
    }
  }

  /** The blocks succeed exactly when every record, numbered from 1 in order, can be formatted. */
  lemma {:induction false} BlocksByOkIff(format: ItemFormatter, items: seq<Json>)
    ensures BlocksBy(format, items).Ok? <==> forall k :: 0 <= k < |items| ==> format(k + 1, items[k]).Ok?
  {
    if items != [] {
      var init := items[..|items| - 1];
      BlocksByOkIff(format, init);
      assert forall k :: 0 <= k < |init| ==> init[k] == items[k];
    }
  }

  /** Record k of a successful report comes, as block k + 1, right after the blocks of the records before it. */
  lemma BlockAt(items: seq<Json>, k: nat)
    requires k < |items| && Blocks(items).Ok?
    ensures Blocks(items[..k]).Ok? && FormatItem(k + 1, items[k]).Ok?
    ensures Blocks(items[..k]).value + FormatItem(k + 1, items[k]).value <= Blocks(items).value
    ensures IntToString(k + 1) + ". **" <= Blocks(items).value[|Blocks(items[..k]).value|]
  {
    BlocksByPrefix(FormatItem, items, k + 1);
    assert items[..k + 1][..k] == items[..k];
    var item := items[k];
    var block := FormatItem(k + 1, item);
    assert block.Ok?;
    assert ShownType(item.entries).Ok? && block.value[0] == HeaderLine(k + 1, item.entries, ShownType(item.entries).value) by {
      ItemBlock(k + 1, item.entries);
    }
    HeaderNumbered(k + 1, item.entries, ShownType(item.entries).value);
  }

  /** Each record yields between two and five lines. */
  lemma {:induction false} BlocksLength(items: seq<Json>)
    requires Blocks(items).Ok?
    ensures 2 * |items| <= |Blocks(items).value| <= 5 * |items|
  {
    if items != [] {
      var init := items[..|items| - 1];
      BlocksLength(init);
    }
  }

  /** A response that is empty or `None`, or a dict whose "data" is absent or falsy. */
  predicate NoData(results: Json) {
    !Truthy(results) || (results.JObj? && !Truthy(Get(results.entries, "data")))
  }

  /** A dict response whose "data" is truthy. */
  predicate HasData(results: Json) {
    results.JObj? && Truthy(results) && Truthy(Get(results.entries, "data"))
  }

  /** No data gives the fixed message, and the fixed message is given only for no data. */
  lemma NoResultsIff(results: Json)
    ensures Report(results) == Ok(NoResultsMessage) <==> NoData(results)
  {
    if HasData(results) && Report(results).Ok? {
      var data := Get(results.entries, "data");
      var items := data.items;
      var parts := [CountLine(|items|)] + Blocks(items).value;
      JoinStartsWithFirst(parts, "\n");
      assert Report(results).value[0] == 'F';
    }
  }

  /**
   * A report on records starts with "Found N results:", a blank line, and
   * then the records' blocks, one line each, joined by newlines.
   */
  lemma ReportOfRecords(results: Json)
    requires HasData(results) && Report(results).Ok?
    ensures var items := Get(results.entries, "data").items;
      Report(results).value == CountLine(|items|) + "\n" + Join(Blocks(items).value, "\n")
  {
    var items := Get(results.entries, "data").items;
    BlocksLength(items);
    var parts := [CountLine(|items|)] + Blocks(items).value;
    JoinHead(parts, "\n");
    assert parts[1..] == Blocks(items).value;
  }

  /**
   * A response whose "data" is a non-empty list of records of the expected
   * shape is reported, never refused: "Found N results:", a blank line, and
   * the records' blocks.
   */
  lemma ReportOfWellShaped(results: Json)
    requires HasData(results) && Get(results.entries, "data").JList?
    requires forall k :: 0 <= k < |Get(results.entries, "data").items| ==> RecordRenders(Get(results.entries, "data").items[k])
    ensures Report(results).Ok?
    ensures var items := Get(results.entries, "data").items;
      Blocks(items).Ok? && Report(results).value == CountLine(|items|) + "\n" + Join(Blocks(items).value, "\n")
  {
    var items := Get(results.entries, "data").items;
    forall k | 0 <= k < |items| ensures FormatItem(k + 1, items[k]).Ok? {
      FormatItemOk(k + 1, items[k].entries);
    }
    BlocksByOkIff(FormatItem, items);
    ReportOfList(results, items);
    ReportOfRecords(results);
  }
}
