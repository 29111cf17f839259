/** `ShoppingTool`: grocery suggestions from the web search service, with a
    fallback to a plain web search when the shopping search finds nothing.
    The two searches are parameters, given the query and the location. */
module ShoppingTool {
  import opened Wrappers
  import opened Text
  import Json
  import Listing
  import Seqs

  const ShoppingHeader := "**Grocery Suggestions:**\n"
  const NoProducts := "No specific products found nearby."
  const OrganicHeader := "**Grocery Search Results:**\n"
  const NoStock := "I couldn't find specific grocery stock info."

  /** The web search the fallback sends. */
  function FallbackQuery(product: string, location: string): string {
    "Buy " + product + " supermarkets " + location
  }

  /** The line of one shopping result, with its defaults for missing fields. */
  function ShoppingLine(item: Json.Object): string {
    "- " + Json.Get(item, "title").GetOr("Unknown") + " (" + Json.Get(item, "price").GetOr("N/A") + ") @ "
    + Json.Get(item, "source").GetOr("Unknown Store") + "\n"
  }

  /** `_format_shopping` */
  function ShoppingText(items: seq<Json.Object>): string {
    if |items| == 0 then NoProducts else ShoppingHeader + Concat(Listing.Lines(ShoppingLine, items, 4))
  }

  /** The line of one web result; a missing title or snippet is empty. */
  function OrganicLine(item: Json.Object): string {
    "- **" + Json.Get(item, "title").GetOr("") + "**: " + Json.Get(item, "snippet").GetOr("") + "\n"
  }

  /** `_format_organic` */
  function OrganicText(items: seq<Json.Object>): string {
    if |items| == 0 then NoStock else OrganicHeader + Concat(Listing.Lines(OrganicLine, items, 3))
  }

  /** `execute`'s reply once both searches are known. */
  function Reply(product: string, location: string,
                 shopping: (string, string) -> seq<Json.Object>, organic: (string, string) -> seq<Json.Object>): string
  {
    var items := shopping(product, location);
    if |items| == 0 then OrganicText(organic(FallbackQuery(product, location), location))
    else ShoppingText(items)
  }

  // ---------------------------------------------------------------------
  // Properties

  /** The `i`-th listed item's line sits after the header and the lines of
      the items before it, in input order. */
  lemma ShoppingTextLists(items: seq<Json.Object>, i: nat)
    requires i < |items| && i < 4
    ensures var lines := Listing.Lines(ShoppingLine, items, 4);
      && |lines| == (if |items| < 4 then |items| else 4)
      && ShoppingText(items) == ShoppingHeader + (Concat(lines[..i]) + ShoppingLine(items[i]) + Concat(lines[i + 1..]))
  {
    Listing.LineAt(ShoppingLine, items, 4, i);
  }

  /** Items after the fourth are never shown. */
  lemma ShoppingTextIgnoresRest(items: seq<Json.Object>, more: seq<Json.Object>)
    requires |items| >= 4
    ensures ShoppingText(items + more) == ShoppingText(items)
  {
    Listing.LinesIgnoreRest(ShoppingLine, items, 4, more);
  }

  /** Each field reads its default when it is missing, whatever the others
      hold: the title "Unknown" at the start, the price "N/A" in the
      parentheses, the store "Unknown Store" at the end. A present field is
      shown as it is. */
  lemma ShoppingLineDefaults(item: Json.Object)
    ensures var line := ShoppingLine(item);
      && ("title" !in item ==> StartsWith(line, "- Unknown ("))
      && ("title" in item ==> StartsWith(line, "- " + item["title"] + " ("))
      && ("price" !in item ==> IsSubstring(" (N/A) @ ", line))
      && ("price" in item ==> IsSubstring(" (" + item["price"] + ") @ ", line))
      && ("source" !in item ==> EndsWith(line, ") @ Unknown Store\n"))
      && ("source" in item ==> EndsWith(line, ") @ " + item["source"] + "\n"))
    ensures ShoppingLine(map[]) == "- Unknown (N/A) @ Unknown Store\n"
  {
    TitleShown(item);
    PriceShown(item);
    SourceShown(item);
    EmptyItemLine();
  }

  lemma EmptyItemLine()
    ensures ShoppingLine(map[]) == "- Unknown (N/A) @ Unknown Store\n"
  {
    var empty: Json.Object := map[];
    assert Json.Get(empty, "title") == None && Json.Get(empty, "price") == None && Json.Get(empty, "source") == None;
  }

  lemma TitleShown(item: Json.Object)
    ensures "title" !in item ==> StartsWith(ShoppingLine(item), "- Unknown (")
    ensures "title" in item ==> StartsWith(ShoppingLine(item), "- " + item["title"] + " (")
  {
    var title := Json.Get(item, "title").GetOr("Unknown");
    var price := Json.Get(item, "price").GetOr("N/A");
    var source := Json.Get(item, "source").GetOr("Unknown Store");
    FrontOf("- " + title + " (", price, ") @ ", source, "\n");
    if "title" !in item {
      assert "- " + title + " (" == "- Unknown (";
    }
  }

  lemma PriceShown(item: Json.Object)
    ensures "price" !in item ==> IsSubstring(" (N/A) @ ", ShoppingLine(item))
    ensures "price" in item ==> IsSubstring(" (" + item["price"] + ") @ ", ShoppingLine(item))
  {
    var title := Json.Get(item, "title").GetOr("Unknown");
    var price := Json.Get(item, "price").GetOr("N/A");
    var source := Json.Get(item, "source").GetOr("Unknown Store");
    MiddleOf("- ", title, " (", price, ") @ ", source, "\n");
    if "price" !in item {
      assert " (" + price + ") @ " == " (N/A) @ ";
    }
  }

  lemma SourceShown(item: Json.Object)
    ensures "source" !in item ==> EndsWith(ShoppingLine(item), ") @ Unknown Store\n")
    ensures "source" in item ==> EndsWith(ShoppingLine(item), ") @ " + item["source"] + "\n")
  {
    var title := Json.Get(item, "title").GetOr("Unknown");
    var price := Json.Get(item, "price").GetOr("N/A");
    var source := Json.Get(item, "source").GetOr("Unknown Store");
    BackOf("- ", title, " (", price, ") @ ", source, "\n");
    if "source" !in item {
      assert ") @ " + source + "\n" == ") @ Unknown Store\n";
    }
  }

  /** The `i`-th listed web result's line sits after the header and the
      lines before it, in input order. */
  lemma OrganicTextLists(items: seq<Json.Object>, i: nat)
    requires i < |items| && i < 3
    ensures var lines := Listing.Lines(OrganicLine, items, 3);
      && |lines| == (if |items| < 3 then |items| else 3)
      && OrganicText(items) == OrganicHeader + (Concat(lines[..i]) + OrganicLine(items[i]) + Concat(lines[i + 1..]))
  {
    Listing.LineAt(OrganicLine, items, 3, i);
  }

  /** Results after the third are never shown. */
  lemma OrganicTextIgnoresRest(items: seq<Json.Object>, more: seq<Json.Object>)
    requires |items| >= 3
    ensures OrganicText(items + more) == OrganicText(items)
  {
    Listing.LinesIgnoreRest(OrganicLine, items, 3, more);
  }

  /** `execute` answers from the shopping search when it found something,
      and otherwise from the fallback web search; so the shopping
      formatter's own not-found text never reaches the user. */
  lemma ReplyFallsBack(product: string, location: string,
                       shopping: (string, string) -> seq<Json.Object>, organic: (string, string) -> seq<Json.Object>)
    ensures var r := Reply(product, location, shopping, organic);
      && (|shopping(product, location)| > 0 ==> r == ShoppingText(shopping(product, location)))
      && (|shopping(product, location)| == 0 ==> r == OrganicText(organic(FallbackQuery(product, location), location)))
      && r != NoProducts
  {
    var r := Reply(product, location, shopping, organic);
    var items := shopping(product, location);
    if |items| > 0 {
      assert r[..|ShoppingHeader|] == ShoppingHeader;
      assert r[0] == '*' != NoProducts[0];
    } else {
      var web := organic(FallbackQuery(product, location), location);
      if |web| > 0 {
        assert r[..|OrganicHeader|] == OrganicHeader;
        assert r[0] == '*' != NoProducts[0];
      } else {
        assert r[0] == 'I' != NoProducts[0];
      }
    }
  }

  // ---------------------------------------------------------------------
  // The tool

  /** `execute`, with the shopping search and the web search as parameters. */
  method Execute(product: string, location: string,
                 shopping: (string, string) -> seq<Json.Object>, organic: (string, string) -> seq<Json.Object>)
    returns (response: string)
    ensures response == Reply(product, location, shopping, organic)
  {
    var items := shopping(product, location);
    if |items| == 0 {
      var searchQ := FallbackQuery(product, location);
      var web := organic(searchQ, location);
      response := FormatOrganic(web);
      return;
    }
    response := FormatShopping(items);
  }

  /** `_format_shopping`: builds the reply line by line. */
  method FormatShopping(items: seq<Json.Object>) returns (response: string)
    ensures response == ShoppingText(items)
  {
    if |items| == 0 {
      return NoProducts;
    }
    ghost var lines := Listing.Lines(ShoppingLine, items, 4);
    response := ShoppingHeader;
    var i := 0;
    while i < |items| && i < 4
      invariant 0 <= i <= |lines|
      invariant response == ShoppingHeader + Concat(lines[..i])
    {
      var item := items[i];
      var title := Json.Get(item, "title").GetOr("Unknown");
      var price := Json.Get(item, "price").GetOr("N/A");
      var source := Json.Get(item, "source").GetOr("Unknown Store");
      var line := "- " + title + " (" + price + ") @ " + source + "\n";
      assert line == lines[i];
      Listing.ConcatStep(lines, i);
      Seqs.AppendAssoc(ShoppingHeader, Concat(lines[..i]), line);
      response := response + line;
      i := i + 1;
    }
    assert lines[..i] == lines;
  }

  /** `_format_organic`: builds the reply line by line. */
  method FormatOrganic(items: seq<Json.Object>) returns (response: string)
    ensures response == OrganicText(items)
  {
    if |items| == 0 {
      return NoStock;
    }
    ghost var lines := Listing.Lines(OrganicLine, items, 3);
    response := OrganicHeader;
    var i := 0;
    while i < |items| && i < 3
      invariant 0 <= i <= |lines|
      invariant response == OrganicHeader + Concat(lines[..i])
    {
      var item := items[i];
      var title := Json.Get(item, "title").GetOr("");
      var snippet := Json.Get(item, "snippet").GetOr("");
      var line := "- **" + title + "**: " + snippet + "\n";
      assert line == lines[i];
      Listing.ConcatStep(lines, i);
      Seqs.AppendAssoc(OrganicHeader, Concat(lines[..i]), line);
      response := response + line;
      i := i + 1;
    }
    assert lines[..i] == lines;
  }
}
