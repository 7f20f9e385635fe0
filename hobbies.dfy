/** The hobbies page generator: it loads the hobbies data file, keeps the
    list only when the shape check passes, and renders either the
    "No hobbies found." message or one card per hobby. A card's icon string
    is split on spaces; `text-` tokens are colour classes, the first of which
    picks the icon colour, and every other token is added to the icon's
    class list, which throws on an empty token or one holding whitespace. */
module Hobbies {
  import opened Json
  import opened Network
  import opened Strings
  import DataValidator

  /** The data file's address. */
  const DataUrl := "hobbies-data.json"

  /** The colour classes the generator knows, with their colours. */
  const ColorMap: map<string, string> := map[
    "text-blue-400" := "#60a5fa",
    "text-gray-400" := "#9ca3af",
    "text-purple-400" := "#a78bfa",
    "text-green-400" := "#4ade80"]

  /** What one hobby card shows: the icon's classes, the icon colour (when
      set), the title and the images, in order. */
  datatype Card = Card(iconClasses: seq<string>, color: Option<string>, title: Option<Json>, images: seq<Json>)

  /** What the hobbies container shows. */
  datatype View = Blank | Loading | NoHobbies | HobbyCards(cards: seq<Card>) | ErrorBox

  // ---------------------------------------------------------------------
  // data selection

  /** The hobbies `init` keeps from the load: the list of a data file that
      loaded with an ok status, parsed and passed the shape check, and `[]`
      for every failure (a thrown check included). */
  function Selected(load: Outcome): (hobbies: seq<Json>)
    ensures forall k | 0 <= k < |hobbies| :: DataValidator.HobbyValid(hobbies[k])
    ensures hobbies != [] ==> load.Resp? && Ok(load.status) && load.body.Some?
  {
    if load.Resp? && Ok(load.status) && load.body.Some?
       && DataValidator.HobbiesVerdict(load.body.value) == DataValidator.Pass
    then DataValidator.Elements(load.body.value, "hobbies")
    else []
  }

  /** A failed load, a body that does not parse and data that fails or
      throws in the check all give the empty list. */
  lemma FailureSelectsNothing(load: Outcome)
    requires !(load.Resp? && Ok(load.status) && load.body.Some?)
             || !DataValidator.HobbiesValid(load.body.value)
    ensures Selected(load) == []
  {
  }

  /** Valid data is kept whole. */
  lemma ValidDataSelected(status: int, data: Json)
    requires Ok(status) && DataValidator.HobbiesValid(data)
    ensures Selected(Resp(status, Some(data))) == DataValidator.Elements(data, "hobbies")
  {
  }

  // ---------------------------------------------------------------------
  // icon classes

  predicate IsColorClass(token: string) {
    StartsWith(token, "text-")
  }

  /** The colour tokens, in order. */
  function ColorTokens(tokens: seq<string>): (r: seq<string>)
    ensures forall k | 0 <= k < |r| :: IsColorClass(r[k]) && r[k] in tokens
  {
    if tokens == [] then []
    else if IsColorClass(tokens[0]) then [tokens[0]] + ColorTokens(tokens[1..])
    else ColorTokens(tokens[1..])
  }

  /** The other tokens, in order. */
  function ClassTokens(tokens: seq<string>): (r: seq<string>)
    ensures forall k | 0 <= k < |r| :: !IsColorClass(r[k]) && r[k] in tokens
  {
    if tokens == [] then []
    else if IsColorClass(tokens[0]) then ClassTokens(tokens[1..])
    else [tokens[0]] + ClassTokens(tokens[1..])
  }

  lemma {:induction false} TokensAppend(a: seq<string>, b: seq<string>)
    ensures ColorTokens(a + b) == ColorTokens(a) + ColorTokens(b)
    ensures ClassTokens(a + b) == ClassTokens(a) + ClassTokens(b)
  {
    if a == [] {
      assert a + b == b;
    } else {
      assert (a + b)[0] == a[0];
      assert (a + b)[1..] == a[1..] + b;
      TokensAppend(a[1..], b);
    }
  }

  /** Every token lands in exactly one of the two lists: together they hold
      the tokens with their multiplicities. */
  lemma {:induction false} PartitionIsExact(tokens: seq<string>)
    ensures |ColorTokens(tokens)| + |ClassTokens(tokens)| == |tokens|
    ensures multiset(ColorTokens(tokens)) + multiset(ClassTokens(tokens)) == multiset(tokens)
  {
    if tokens != [] {
      PartitionIsExact(tokens[1..]);
      assert tokens == [tokens[0]] + tokens[1..];
    }
  }

  /** A token `classList.add` accepts: not empty and free of ASCII
      whitespace. */
  predicate ClassListAccepts(token: string) {
    token != "" && forall k | 0 <= k < |token| :: token[k] !in {' ', '\t', '\n', '\r', '\U{000C}'}
  }

  /** The colour of the icon: that of the first colour class, when the map
      knows it; later colour classes never count. */
  function IconColor(colors: seq<string>): (r: Option<string>)
    ensures r.Some? <==> |colors| > 0 && colors[0] in ColorMap
    ensures r.Some? ==> r.value == ColorMap[colors[0]]
  {
    if |colors| > 0 && colors[0] in ColorMap then Some(ColorMap[colors[0]]) else None
  }

  /** Tokens none of which is a colour class give no colour. */
  lemma {:induction false} NoColorTokens(tokens: seq<string>)
    requires forall k | 0 <= k < |tokens| :: !IsColorClass(tokens[k])
    ensures ColorTokens(tokens) == []
  {
    if tokens != [] {
      NoColorTokens(tokens[1..]);
    }
  }

  /** The first colour class alone decides the icon's colour: a known one
      gives its colour whatever follows, an unknown one gives none even when
      a known one comes later. */
  lemma {:induction false} FirstColorDecides(tokens: seq<string>, i: nat)
    requires i < |tokens| && IsColorClass(tokens[i])
    requires forall k | 0 <= k < i :: !IsColorClass(tokens[k])
    ensures IconColor(ColorTokens(tokens)) == if tokens[i] in ColorMap then Some(ColorMap[tokens[i]]) else None
  {
    NoColorTokens(tokens[..i]);
    TokensAppend(tokens[..i], tokens[i..]);
    assert tokens[..i] + tokens[i..] == tokens;
    assert tokens[i..][0] == tokens[i];
    assert ColorTokens(tokens)[0] == tokens[i];
  }

  /** The card of one validated hobby, or None when building it throws:
      an icon that is not a string has no `split`, and `classList.add`
      rejects an empty token (two spaces in a row) or one with whitespace,
      `images.forEach` needs an array, and reading `url` of a null image
      throws. */
  function CardOf(hobby: Json): (r: Option<Card>)
    ensures r.Some? ==> Get(hobby, "icon").Some? && Get(hobby, "icon").value.JStr?
    ensures r.Some? ==> var tokens := Split(Get(hobby, "icon").value.s, ' ');
      && r.value.iconClasses == ClassTokens(tokens)
      && r.value.color == IconColor(ColorTokens(tokens))
      && r.value.title == Get(hobby, "title")
      && ArrayField(hobby, "images") && r.value.images == DataValidator.Elements(hobby, "images")
    ensures r.Some? ==> JNull !in DataValidator.Elements(hobby, "images")
  {
    var icon := Get(hobby, "icon");
    if icon.None? || !icon.value.JStr? then None
    else
      var tokens := Split(icon.value.s, ' ');
      var classes := ClassTokens(tokens);
      if exists k | 0 <= k < |classes| :: !ClassListAccepts(classes[k]) then None
      else if !ArrayField(hobby, "images") || JNull in DataValidator.Elements(hobby, "images") then None
      else Some(Card(classes, IconColor(ColorTokens(tokens)), Get(hobby, "title"), DataValidator.Elements(hobby, "images")))
  }

  /** A hobby that passed the shape check always gets its card when its icon
      is a string whose class tokens `classList.add` accepts: the check
      already rules out every other throw. */
  lemma ValidHobbyHasCard(hobby: Json, icon: string)
    requires DataValidator.HobbyValid(hobby) && Get(hobby, "icon") == Some(JStr(icon))
    requires forall k | 0 <= k < |ClassTokens(Split(icon, ' '))| :: ClassListAccepts(ClassTokens(Split(icon, ' '))[k])
    ensures CardOf(hobby).Some?
  {
  }

  /** The cards of the list in order, or None when any card throws. */
  function CardsOf(hobbies: seq<Json>): (r: Option<seq<Card>>)
    ensures r.Some? <==> forall k | 0 <= k < |hobbies| :: CardOf(hobbies[k]).Some?
    ensures r.Some? ==> |r.value| == |hobbies| && forall k | 0 <= k < |hobbies| :: r.value[k] == CardOf(hobbies[k]).value
  {
    if hobbies == [] then Some([])
    else
      var c := CardOf(hobbies[0]);
      var rest := CardsOf(hobbies[1..]);
      if c.None? then None
      else if rest.None? then
        assert exists k | 1 <= k < |hobbies| :: CardOf(hobbies[k]).None? by {
          var k :| 0 <= k < |hobbies[1..]| && CardOf(hobbies[1..][k]).None?;
          assert hobbies[1..][k] == hobbies[k + 1];
        }
        None
      else
        forall k | 1 <= k < |hobbies| ensures hobbies[k] == hobbies[1..][k - 1] { }
        Some([c.value] + rest.value)
  }

  /** What `renderHobbies` leaves in the container for `hobbies`. */
  function RenderedView(hobbies: seq<Json>): View {
    if |hobbies| == 0 then NoHobbies
    else
      var cards := CardsOf(hobbies);
      if cards.Some? then HobbyCards(cards.value) else ErrorBox
  }

  /** An empty list renders the message and no card. */
  lemma EmptyListRendersMessageOnly()
    ensures RenderedView([]) == NoHobbies
  {
  }

  /** A rendered list has one card per hobby, each with that hobby's title
      and images in order. */
  lemma OneCardPerHobby(hobbies: seq<Json>, cards: seq<Card>)
    requires RenderedView(hobbies) == HobbyCards(cards)
    ensures |cards| == |hobbies| > 0
    ensures forall k | 0 <= k < |hobbies| ::
      cards[k].title == Get(hobbies[k], "title") &&
      cards[k].images == DataValidator.Elements(hobbies[k], "images")
  {
  }

  // ---------------------------------------------------------------------
  // the generator

  class HobbiesGenerator {
    var hobbies: seq<Json>
    /** Whether the page has the `hobbies-grid` container. */
    const hasContainer: bool
    var view: View
    /** Every view put in the container, oldest first. */
    var shown: seq<View>

    constructor (hasContainer: bool)
      ensures this.hasContainer == hasContainer
      ensures hobbies == [] && view == Blank && shown == []
    {
      this.hasContainer := hasContainer;
      hobbies := [];
      view := Blank;
      shown := [];
    }

    /** The copy of the shape check the generator carries: the same loops,
        so the same verdict as the shared validator on every input. */
    method ValidateHobbiesData(data: Json) returns (r: DataValidator.Verdict)
      ensures r == DataValidator.HobbiesVerdict(data)
    {
      if !Truthy(data) || !IsObjectLike(data) {
        return DataValidator.Fail;
      }
      if !ArrayField(data, "hobbies") {
        return DataValidator.Fail;
      }
      var list := DataValidator.Elements(data, "hobbies");
      var i := 0;
      while i < |list|
        invariant 0 <= i <= |list|
        invariant DataValidator.HobbiesVerdict(data) == DataValidator.HobbiesFrom(list, i)
      {
        var hobby := list[i];
        if hobby == JNull {
          return DataValidator.Throws;
        }
        if !(TruthyField(hobby, "id") && TruthyField(hobby, "title") && TruthyField(hobby, "icon")
             && ArrayField(hobby, "images")) {
          return DataValidator.Fail;
        }
        var images := DataValidator.Elements(hobby, "images");
        var j := 0;
        while j < |images|
          invariant 0 <= j <= |images|
          invariant DataValidator.HobbyCheck(hobby) == DataValidator.ImagesFrom(images, j)
        {
          var image := images[j];
          if image == JNull {
            return DataValidator.Throws;
          }
          if !(TruthyField(image, "url") && TruthyField(image, "alt")) {
            return DataValidator.Fail;
          }
          j := j + 1;
        }
        i := i + 1;
      }
      r := DataValidator.Pass;
    }

    /** `init`: keeps the loaded list when it passes the check, `[]`
        otherwise, then renders. */
    method Init(load: Outcome)
      modifies this
      ensures hobbies == Selected(load)
      ensures !hasContainer ==> view == old(view) && shown == old(shown)
      ensures hasContainer ==> view == RenderedView(hobbies) && shown == old(shown) + [Loading, view]
    {
      hobbies := [];
      if load.Resp? && Ok(load.status) && load.body.Some? {
        var verdict := ValidateHobbiesData(load.body.value);
        if verdict == DataValidator.Pass {
          hobbies := DataValidator.Elements(load.body.value, "hobbies");
        }
      }
      RenderHobbies();
    }

    /** `renderHobbies`: the loading view, then the message for an empty
        list, the cards, or the error view when building a card throws. */
    method RenderHobbies()
      modifies this
      ensures hobbies == old(hobbies)
      ensures !hasContainer ==> view == old(view) && shown == old(shown)
      ensures hasContainer ==> view == RenderedView(hobbies) && shown == old(shown) + [Loading, view]
    {
      if !hasContainer {
        return;
      }
      view := Loading;
      shown := shown + [Loading];
      if |hobbies| == 0 {
        view := NoHobbies;
      } else {
        var cards := RenderHobbyCards();
        view := if cards.Some? then HobbyCards(cards.value) else ErrorBox;
      }
      shown := shown + [view];
    }

    /** `renderHobbyCards`: one card per hobby, in order. */
    method RenderHobbyCards() returns (cards: Option<seq<Card>>)
      ensures cards == CardsOf(hobbies)
    {
      var built: seq<Card> := [];
      var i := 0;
      while i < |hobbies|
        invariant 0 <= i <= |hobbies|
        invariant CardsOf(hobbies[..i]) == Some(built)
      {
        var card := CreateCard(hobbies[i]);
        if card.None? {
          CardsOfNone(hobbies, i);
          return None;
        }
        CardsOfSnoc(hobbies[..i], hobbies[i], built);
        assert hobbies[..i + 1] == hobbies[..i] + [hobbies[i]];
        built := built + [card.value];
        i := i + 1;
      }
      assert hobbies[..i] == hobbies;
      cards := Some(built);
    }

    /** The body of the card loop for one hobby: splits the icon string and
        sends each token to the colour list or the icon's class list. */
    method CreateCard(hobby: Json) returns (card: Option<Card>)
      ensures card == CardOf(hobby)
    {
      var icon := Get(hobby, "icon");
      if icon.None? || !icon.value.JStr? {
        return None;
      }
      var tokens := Split(icon.value.s, ' ');
      var colorClasses: seq<string> := [];
      var iconClasses: seq<string> := [];
      var i := 0;
      while i < |tokens|
        invariant 0 <= i <= |tokens|
        invariant colorClasses == ColorTokens(tokens[..i])
        invariant iconClasses == ClassTokens(tokens[..i])
        invariant forall k | 0 <= k < |iconClasses| :: ClassListAccepts(iconClasses[k])
      {
        var cls := tokens[i];
        TokenStep(tokens, i);
        if IsColorClass(cls) {
          colorClasses := colorClasses + [cls];
        } else {
          if !ClassListAccepts(cls) {
            TokenRejected(hobby, tokens, i);
            return None;
          }
          iconClasses := iconClasses + [cls];
        }
        i := i + 1;
      }
      assert tokens[..i] == tokens;
      if !ArrayField(hobby, "images") {
        return None;
      }
      var images := DataValidator.Elements(hobby, "images");
      var j := 0;
      while j < |images|
        invariant 0 <= j <= |images|
        invariant JNull !in images[..j]
      {
        if images[j] == JNull {
          // reading `image.url` of a null image throws
          return None;
        }
        assert images[..j + 1] == images[..j] + [images[j]];
        j := j + 1;
      }
      assert images[..j] == images;
      card := Some(Card(iconClasses, IconColor(colorClasses), Get(hobby, "title"), DataValidator.Elements(hobby, "images")));
    }
  }

  /** One more token goes to the list its kind says. */
  lemma TokenStep(tokens: seq<string>, i: nat)
    requires i < |tokens|
    ensures ColorTokens(tokens[..i + 1]) == ColorTokens(tokens[..i]) + if IsColorClass(tokens[i]) then [tokens[i]] else []
    ensures ClassTokens(tokens[..i + 1]) == ClassTokens(tokens[..i]) + if IsColorClass(tokens[i]) then [] else [tokens[i]]
  {
    TokensAppend(tokens[..i], [tokens[i]]);
    assert tokens[..i + 1] == tokens[..i] + [tokens[i]];
  }

  /** A class token `classList.add` rejects makes the whole card throw. */
  lemma TokenRejected(hobby: Json, tokens: seq<string>, i: nat)
    requires Get(hobby, "icon").Some? && Get(hobby, "icon").value.JStr?
    requires tokens == Split(Get(hobby, "icon").value.s, ' ')
    requires i < |tokens| && !IsColorClass(tokens[i]) && !ClassListAccepts(tokens[i])
    ensures CardOf(hobby) == None
  {
    TokensAppend(tokens[..i + 1], tokens[i + 1..]);
    assert tokens[..i + 1] + tokens[i + 1..] == tokens;
    TokenStep(tokens, i);
    assert ClassTokens(tokens)[|ClassTokens(tokens[..i])|] == tokens[i];
  }

  lemma CardsOfSnoc(hobbies: seq<Json>, hobby: Json, built: seq<Card>)
    requires CardsOf(hobbies) == Some(built) && CardOf(hobby).Some?
    ensures CardsOf(hobbies + [hobby]) == Some(built + [CardOf(hobby).value])
  {
    var all := hobbies + [hobby];
    assert forall k | 0 <= k < |hobbies| :: all[k] == hobbies[k];
    assert all[|hobbies|] == hobby;
    assert CardsOf(all).Some?;
    assert CardsOf(all).value == built + [CardOf(hobby).value];
  }

  lemma CardsOfNone(hobbies: seq<Json>, i: nat)
    requires i < |hobbies| && CardOf(hobbies[i]).None?
    ensures CardsOf(hobbies) == None
  {
  }
}
