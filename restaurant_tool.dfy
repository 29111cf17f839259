/** `RestaurantTool`: restaurant recommendations from the web search
    service's places search, which is a parameter. */
module RestaurantTool {
  import opened Wrappers
  import opened Text
  import Json
  import Listing
  import Seqs

  function NoPlaces(cuisine: string, location: string): string {
    "I couldn't find any restaurants matching '" + cuisine + "' in " + location + "."
  }

  function Header(cuisine: string, location: string): string {
    "**Restaurant Recommendations for " + cuisine + " (" + location + "):**\n"
  }

  /** The line of one place, with its defaults for missing fields. */
  function PlaceLine(place: Json.Object): string {
    "- **" + Json.Get(place, "title").GetOr("Unknown") + "** (⭐" + Json.Get(place, "rating").GetOr("N/A") + "): "
    + Json.Get(place, "address").GetOr("No address") + "\n"
  }

  /** `execute`'s reply once the places are known. */
  function Reply(cuisine: string, location: string, places: seq<Json.Object>): string {
    if |places| == 0 then NoPlaces(cuisine, location)
    else Header(cuisine, location) + Concat(Listing.Lines(PlaceLine, places, 4))
  }

  // ---------------------------------------------------------------------
  // Properties

  /** Both replies name the cuisine and the location asked for. */
  lemma ReplyNamesTheRequest(cuisine: string, location: string, places: seq<Json.Object>)
    ensures IsSubstring(cuisine, Reply(cuisine, location, places))
    ensures IsSubstring(location, Reply(cuisine, location, places))
  {
    if |places| == 0 {
      BothOccur("I couldn't find any restaurants matching '", cuisine, "' in ", location, ".");
    } else {
      var header := Header(cuisine, location);
      var rest := Concat(Listing.Lines(PlaceLine, places, 4));
      assert IsSubstring(cuisine, header) && IsSubstring(location, header) by {
        BothOccur("**Restaurant Recommendations for ", cuisine, " (", location, "):**\n");
      }
      InFront(cuisine, header, rest);
      InFront(location, header, rest);
    }
  }

  lemma InFront(p: string, front: string, rest: string)
    requires IsSubstring(p, front)
    ensures IsSubstring(p, front + rest)
  {
    SubstringInContext(p, front, "", rest);
    assert "" + front + rest == front + rest;
  }

  /** The `i`-th place's line sits after the header and the lines of the
      places before it, in the order the search returned them. */
  lemma ReplyLists(cuisine: string, location: string, places: seq<Json.Object>, i: nat)
    requires i < |places| && i < 4
    ensures var lines := Listing.Lines(PlaceLine, places, 4);
      && |lines| == (if |places| < 4 then |places| else 4)
      && Reply(cuisine, location, places) == Header(cuisine, location) + (Concat(lines[..i]) + PlaceLine(places[i]) + Concat(lines[i + 1..]))
  {
    Listing.LineAt(PlaceLine, places, 4, i);
  }

  /** Places after the fourth are never shown. */
  lemma ReplyIgnoresRest(cuisine: string, location: string, places: seq<Json.Object>, more: seq<Json.Object>)
    requires |places| >= 4
    ensures Reply(cuisine, location, places + more) == Reply(cuisine, location, places)
  {
    Listing.LinesIgnoreRest(PlaceLine, places, 4, more);
  }

  /** Each field reads its default when it is missing, whatever the others
      hold: the name "Unknown" at the start, the rating "N/A" after the
      star, the address "No address" at the end. A present field is shown
      as it is. */
  lemma PlaceLineDefaults(place: Json.Object)
    ensures var line := PlaceLine(place);
      && ("title" !in place ==> StartsWith(line, "- **Unknown** (⭐"))
      && ("title" in place ==> StartsWith(line, "- **" + place["title"] + "** (⭐"))
      && ("rating" !in place ==> IsSubstring("** (⭐N/A): ", line))
      && ("rating" in place ==> IsSubstring("** (⭐" + place["rating"] + "): ", line))
      && ("address" !in place ==> EndsWith(line, "): No address\n"))
      && ("address" in place ==> EndsWith(line, "): " + place["address"] + "\n"))
    ensures PlaceLine(map[]) == "- **Unknown** (⭐N/A): No address\n"
  {
    NameShown(place);
    RatingShown(place);
    AddressShown(place);
    EmptyPlaceLine();
  }

  lemma NameShown(place: Json.Object)
    ensures "title" !in place ==> StartsWith(PlaceLine(place), "- **Unknown** (⭐")
    ensures "title" in place ==> StartsWith(PlaceLine(place), "- **" + place["title"] + "** (⭐")
  {
    var name := Json.Get(place, "title").GetOr("Unknown");
    var rating := Json.Get(place, "rating").GetOr("N/A");
    var address := Json.Get(place, "address").GetOr("No address");
    FrontOf("- **" + name + "** (⭐", rating, "): ", address, "\n");
    if "title" !in place {
      assert "- **" + name + "** (⭐" == "- **Unknown** (⭐";
    }
  }

  lemma RatingShown(place: Json.Object)
    ensures "rating" !in place ==> IsSubstring("** (⭐N/A): ", PlaceLine(place))
    ensures "rating" in place ==> IsSubstring("** (⭐" + place["rating"] + "): ", PlaceLine(place))
  {
    var name := Json.Get(place, "title").GetOr("Unknown");
    var rating := Json.Get(place, "rating").GetOr("N/A");
    var address := Json.Get(place, "address").GetOr("No address");
    MiddleOf("- **", name, "** (⭐", rating, "): ", address, "\n");
    if "rating" !in place {
      assert "** (⭐" + rating + "): " == "** (⭐N/A): ";
    }
  }

  lemma AddressShown(place: Json.Object)
    ensures "address" !in place ==> EndsWith(PlaceLine(place), "): No address\n")
    ensures "address" in place ==> EndsWith(PlaceLine(place), "): " + place["address"] + "\n")
  {
    var name := Json.Get(place, "title").GetOr("Unknown");
    var rating := Json.Get(place, "rating").GetOr("N/A");
    var address := Json.Get(place, "address").GetOr("No address");
    BackOf("- **", name, "** (⭐", rating, "): ", address, "\n");
    if "address" !in place {
      assert "): " + address + "\n" == "): No address\n";
    }
  }

  lemma EmptyPlaceLine()
    ensures PlaceLine(map[]) == "- **Unknown** (⭐N/A): No address\n"
  {
    var empty: Json.Object := map[];
    assert Json.Get(empty, "title") == None && Json.Get(empty, "rating") == None && Json.Get(empty, "address") == None;
  }

  // ---------------------------------------------------------------------
  // The tool

  /** `execute`, with the places search as a parameter. */
  method Execute(cuisine: string, location: string, findPlaces: (string, string) -> seq<Json.Object>)
    returns (response: string)
    ensures response == Reply(cuisine, location, findPlaces(cuisine, location))
  {
    var places := findPlaces(cuisine, location);
    if |places| == 0 {
      return NoPlaces(cuisine, location);
    }
    var header := Header(cuisine, location);
    ghost var lines := Listing.Lines(PlaceLine, places, 4);
    response := header;
    var i := 0;
    while i < |places| && i < 4
      invariant 0 <= i <= |lines|
      invariant response == header + Concat(lines[..i])
    {
      var place := places[i];
      var name := Json.Get(place, "title").GetOr("Unknown");
      var rating := Json.Get(place, "rating").GetOr("N/A");
      var address := Json.Get(place, "address").GetOr("No address");
      var line := "- **" + name + "** (⭐" + rating + "): " + address + "\n";
      assert line == lines[i];
      Listing.ConcatStep(lines, i);
      Seqs.AppendAssoc(header, Concat(lines[..i]), line);
      response := response + line;
      i := i + 1;
    }
    assert lines[..i] == lines;
  }
}
