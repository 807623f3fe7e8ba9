/** The display fields `renderList` derives from each raw item record through `||`
    chains before it builds the card. */
module Items {
  import opened Wrappers
  import opened Json
  import opened Text

  /** The item properties the card reads. */
  datatype Field = Title | Name | BookTitle | Price | CurrentPrice | OldPrice | Image | Images | Rating | ReviewsCount

  /** The property name in the API's records. */
  function Key(f: Field): string {
    match f
    case Title => "title"
    case Name => "name"
    case BookTitle => "bookTitle"
    case Price => "price"
    case CurrentPrice => "currentPrice"
    case OldPrice => "oldPrice"
    case Image => "image"
    case Images => "images"
    case Rating => "rating"
    case ReviewsCount => "reviews_count"
  }

  /** `it.<key>` on an item that is not `null`. Only an object has these properties; on
      an array, string, number or boolean they read as `undefined`. */
  function Prop(it: Json, f: Field): (r: Option<Json>)
    ensures r.Some? <==> it.Obj? && exists i :: 0 <= i < |it.members| && it.members[i].0 == Key(f)
    ensures r.Some? ==> exists i :: 0 <= i < |it.members| && it.members[i] == (Key(f), r.value)
  {
    if it.Obj? then Lookup(it.members, Key(f)) else None
  }

  /** `it.images && it.images[0]`: the falsy `images` itself, or the element at index 0
      of a truthy one (the first character of a string, member "0" of an object). */
  function FirstImage(it: Json): (r: Option<Json>)
    ensures !Truthy(Prop(it, Images)) ==> !Truthy(r)
    ensures Prop(it, Images).Some? && Prop(it, Images).value.Arr? ==>
      var a := Prop(it, Images).value.elems; r == if |a| > 0 then Some(a[0]) else None
    ensures Truthy(Prop(it, Images)) && Prop(it, Images).value.Str? ==>
      r.Some? && r.value.Str? && r.value.s == [Prop(it, Images).value.s[0]]
    ensures Truthy(Prop(it, Images)) && (Prop(it, Images).value.Bool? || Prop(it, Images).value.Num?) ==> r.None?
    ensures Truthy(Prop(it, Images)) && Prop(it, Images).value.Obj? ==> r == Lookup(Prop(it, Images).value.members, "0")
  {
    var images := Prop(it, Images);
    if !Truthy(images) then images
    else match images.value
      case Arr(a) => if |a| > 0 then Some(a[0]) else None
      case Str(s) => Some(Str(s[..1]))
      case Obj(m) => Lookup(m, "0")
      case _ => None
  }

  /** The position of the first truthy candidate; `|cands|` when none is truthy. */
  function FirstTruthy(cands: seq<Option<Json>>): (i: nat)
    ensures i <= |cands|
    ensures i < |cands| ==> Truthy(cands[i])
    ensures forall j :: 0 <= j < i ==> !Truthy(cands[j])
  {
    if cands == [] || Truthy(cands[0]) then 0
    else
      var i := 1 + FirstTruthy(cands[1..]);
      assert forall j :: 1 <= j < |cands| ==> cands[j] == cands[1..][j - 1];
      i
  }

  /** The first truthy candidate, or `fallback` when there is none. */
  function FirstTruthyOr(cands: seq<Option<Json>>, fallback: Json): Json {
    var i := FirstTruthy(cands);
    if i < |cands| then cands[i].value else fallback
  }

  /** `a || d` with a present default `d` is the first truthy of `[a]`, else `d`. */
  lemma OrChain1(a: Option<Json>, d: Json)
    ensures Or(a, Some(d)).Some? && Or(a, Some(d)).value == FirstTruthyOr([a], d)
  {
  }

  /** `a || b || d` is the first truthy of `[a, b]`, else `d`. */
  lemma OrChain2(a: Option<Json>, b: Option<Json>, d: Json)
    ensures Or(Or(a, b), Some(d)).Some? && Or(Or(a, b), Some(d)).value == FirstTruthyOr([a, b], d)
  {
    var i := FirstTruthy([a, b]);
    assert [a, b][1] == b;
    if Truthy(a) {
      assert i == 0;
    } else if Truthy(b) {
      assert i == 1;
    } else {
      assert i == 2;
    }
  }

  /** `a || b || c || d` is the first truthy of `[a, b, c]`, else `d`. */
  lemma OrChain3(a: Option<Json>, b: Option<Json>, c: Option<Json>, d: Json)
    ensures Or(Or(Or(a, b), c), Some(d)).Some? && Or(Or(Or(a, b), c), Some(d)).value == FirstTruthyOr([a, b, c], d)
  {
    var i := FirstTruthy([a, b, c]);
    assert [a, b, c][1] == b && [a, b, c][2] == c;
    if Truthy(a) {
      assert i == 0;
    } else if Truthy(b) {
      assert i == 1;
    } else if Truthy(c) {
      assert i == 2;
    } else {
      assert i == 3;
    }
  }

  /** The title of an item without one. */
  const Untitled: string := "Без названия"

  /** The values a card is built from. */
  datatype Card = Card(title: Json, price: Json, oldPrice: Json, image: Json, rating: Json, reviewsCount: Json)

  /** Lines 86-91 of `renderList` for one item. Reading a property of a `null` item
      throws a TypeError, which the model returns as `None`. Each field is the first
      truthy property in its chain, in the order the chain names them, else its
      default: the untitled label, `null` for the prices, `''` for the image, 5 for the
      rating, 0 for the review count. So a missing or zero rating becomes 5. */
  function CardFields(it: Json): (r: Option<Card>)
    ensures r.None? <==> it.Null?
    ensures r.Some? ==> r.value.title == FirstTruthyOr([Prop(it, Title), Prop(it, Name), Prop(it, BookTitle)], Str(Untitled))
    ensures r.Some? ==> r.value.price == FirstTruthyOr([Prop(it, Price), Prop(it, CurrentPrice)], Null)
    ensures r.Some? ==> r.value.oldPrice == FirstTruthyOr([Prop(it, OldPrice)], Null)
    ensures r.Some? ==> r.value.image == FirstTruthyOr([Prop(it, Image), FirstImage(it)], Str(""))
    ensures r.Some? ==> r.value.rating == FirstTruthyOr([Prop(it, Rating)], Num(5.0))
    ensures r.Some? ==> r.value.reviewsCount == FirstTruthyOr([Prop(it, ReviewsCount)], Num(0.0))
  {
    if it.Null? then None
    else
      var title := Or(Or(Or(Prop(it, Title), Prop(it, Name)), Prop(it, BookTitle)), Some(Str(Untitled)));
      var price := Or(Or(Prop(it, Price), Prop(it, CurrentPrice)), Some(Null));
      var oldPrice := Or(Prop(it, OldPrice), Some(Null));
      var image := Or(Or(Prop(it, Image), FirstImage(it)), Some(Str("")));
      var rating := Or(Prop(it, Rating), Some(Num(5.0)));
      var reviewsCount := Or(Prop(it, ReviewsCount), Some(Num(0.0)));
      OrChain3(Prop(it, Title), Prop(it, Name), Prop(it, BookTitle), Str(Untitled));
      OrChain2(Prop(it, Price), Prop(it, CurrentPrice), Null);
      OrChain1(Prop(it, OldPrice), Null);
      OrChain2(Prop(it, Image), FirstImage(it), Str(""));
      OrChain1(Prop(it, Rating), Num(5.0));
      OrChain1(Prop(it, ReviewsCount), Num(0.0));
      Some(Card(title.value, price.value, oldPrice.value, image.value, rating.value, reviewsCount.value))
  }

  /** Every card has a truthy title and rating; its prices are `null` or truthy, so the
      card's `price ? … : '—'` test is false exactly when the item has no price. */
  lemma CardFieldsShape(it: Json)
    requires !it.Null?
    ensures var c := CardFields(it).value;
      Truthy(Some(c.title)) && Truthy(Some(c.rating)) &&
      (c.price == Null || Truthy(Some(c.price))) &&
      (c.oldPrice == Null || Truthy(Some(c.oldPrice))) &&
      (Truthy(Some(c.price)) <==> Truthy(Prop(it, Price)) || Truthy(Prop(it, CurrentPrice)))
  {
  }

  /** An item whose rating is missing, `null`, `0`, `false` or `""` shows five filled
      stars, not five empty ones. */
  lemma FalsyRatingShowsFiveStars(it: Json)
    requires !it.Null? && !Truthy(Prop(it, Rating))
    ensures CardFields(it).value.rating == Num(5.0)
    ensures RenderStars(Finite(CardFields(it).value.rating.n)) == Repeat(FilledStar, 5)
  {
  }

  /** The title shown is the item's `title` when that is a non-empty string, whatever
      `name` and `bookTitle` hold. */
  lemma TitlePreferred(it: Json, t: string)
    requires it.Obj? && Lookup(it.members, "title") == Some(Str(t)) && t != ""
    ensures CardFields(it).value.title == Str(t)
  {
  }
}
