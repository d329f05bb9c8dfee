/** frontend/src/components/products/ProductForm.jsx: the dashboard's
    add/edit product form. The form is filled from the product being edited,
    `validate` collects one message per faulty field, and `handleSubmit`
    turns the form's text into the product sent to the server, splitting the
    comma-separated tags. */
module ProductForm {
  import opened Common
  import opened Text

  /** The form's fields. The three numeric inputs are `type="number"`, whose
      value is either empty (`None`) or a number (`Some`). */
  datatype FormData = FormData(
    name: string,
    description: string,
    price: Option<int>,
    costPrice: Option<int>,
    stock: Option<int>,
    unit: string,
    category: string,
    tags: string)

  /** A product as the form reads it and as `onSubmit` receives it. */
  datatype ProductFields = ProductFields(
    name: string,
    description: string,
    price: int,
    costPrice: int,
    stock: int,
    unit: string,
    category: string,
    tags: seq<string>)

  // ---------------------------------------------------------------- tags

  /** `.map(tag => tag.trim())` */
  function TrimAll(parts: seq<string>): (r: seq<string>)
    ensures |r| == |parts|
  {
    seq(|parts|, k requires 0 <= k < |parts| => Trim(parts[k]))
  }

  /** `.filter(Boolean)` on strings: the empty ones go, the rest keep their order. */
  function DropEmpty(xs: seq<string>): (r: seq<string>)
    ensures |r| <= |xs|
    ensures forall k :: 0 <= k < |r| ==> r[k] != "" && r[k] in xs
  {
    if xs == [] then []
    else if xs[0] == "" then DropEmpty(xs[1..])
    else [xs[0]] + DropEmpty(xs[1..])
  }

  /** `tags ? tags.split(',').map(tag => tag.trim()).filter(Boolean) : []` */
  function ParseTags(tags: string): seq<string> {
    if tags == "" then [] else DropEmpty(TrimAll(Split(tags, ',')))
  }

  /** A tag the form can carry unchanged through a join and a split. */
  predicate CleanTag(t: string) {
    t != "" && Trim(t) == t && ',' !in t
  }

  /** Every parsed tag is non-empty, trimmed and free of commas. */
  lemma {:induction false} ParsedTagsClean(tags: string)
    ensures forall k :: 0 <= k < |ParseTags(tags)| ==> CleanTag(ParseTags(tags)[k])
  {
    if tags != "" {
      var parts := Split(tags, ',');
      forall t | t in DropEmpty(TrimAll(parts))
        ensures CleanTag(t)
      {
        var j :| 0 <= j < |parts| && TrimAll(parts)[j] == t;
        TrimmedPiece(parts[j]);
      }
    }
  }

  /** Trimming a piece keeps it free of commas and makes it trimmed. */
  lemma TrimmedPiece(piece: string)
    requires ',' !in piece && Trim(piece) != ""
    ensures CleanTag(Trim(piece))
  {
    var t := Trim(piece);
    TrimIdempotent(piece);
    assert t == TrimStart(piece)[..|t|];
    assert forall c :: c in t ==> c in piece;
  }

  /** The `tags ?` guard changes nothing: splitting the empty string gives
      one empty piece, which the filter drops. */
  lemma EmptyTagsGuardRedundant()
    ensures DropEmpty(TrimAll(Split("", ','))) == [] == ParseTags("")
  {
    assert Trim("") == "";
    assert TrimAll([""]) == [""];
  }

  /** A leading space is trimmed off a clean tag. */
  lemma TrimAfterSpace(t: string)
    requires CleanTag(t)
    ensures Trim(" " + t) == t
  {
    assert (" " + t)[1..] == t;
    assert TrimStart(" " + t) == TrimStart(t);
  }

  /** The edit form shows the tags as `tags.join(', ')`; submitting it
      unchanged gives back the same tags, when each is clean. */
  lemma TagsRoundTrip(tags: seq<string>)
    requires forall k :: 0 <= k < |tags| ==> CleanTag(tags[k])
    ensures ParseTags(Join(tags, ", ")) == tags
  {
    if tags != [] {
      var pieces := Split(Join(tags, ", "), ',');
      JoinedPieces(tags);
      assert Join(tags, ", ") != "" by {
        JoinStartsWithFirst(tags, ", ");
      }
      TrimPieces(tags, pieces);
      DropEmptyKeepsNonEmpty(tags);
    }
  }

  /** Splitting `tags.join(', ')` on commas gives the tags back, each after
      the first with the joiner's space in front. */
  lemma JoinedPieces(tags: seq<string>)
    requires |tags| >= 1 && forall k :: 0 <= k < |tags| ==> ',' !in tags[k]
    ensures var pieces := Split(Join(tags, ", "), ',');
            && |pieces| == |tags| && pieces[0] == tags[0]
            && forall k :: 1 <= k < |tags| ==> pieces[k] == " " + tags[k]
  {
    SplitJoin(tags, ',');
  }

  /** Trimming the pieces of a joined list strips the one space the joiner put
      before every tag after the first. */
  lemma TrimPieces(tags: seq<string>, pieces: seq<string>)
    requires forall k :: 0 <= k < |tags| ==> CleanTag(tags[k])
    requires |pieces| == |tags| >= 1 && pieces[0] == tags[0]
    requires forall k :: 1 <= k < |tags| ==> pieces[k] == " " + tags[k]
    ensures TrimAll(pieces) == tags
  {
    forall k | 0 <= k < |tags|
      ensures TrimAll(pieces)[k] == tags[k]
    {
      if k > 0 {
        TrimAfterSpace(tags[k]);
      }
    }
  }

  lemma {:induction false} JoinStartsWithFirst(parts: seq<string>, sep: string)
    requires |parts| >= 1
    ensures |Join(parts, sep)| >= |parts[0]|
  {
  }

  /** The filter keeps a list with no empty string as it is. */
  lemma {:induction false} DropEmptyKeepsNonEmpty(xs: seq<string>)
    requires forall k :: 0 <= k < |xs| ==> xs[k] != ""
    ensures DropEmpty(xs) == xs
  {
    if xs != [] {
      assert forall k :: 0 <= k < |xs| - 1 ==> xs[1..][k] == xs[k + 1];
      DropEmptyKeepsNonEmpty(xs[1..]);
      assert xs == [xs[0]] + xs[1..];
    }
  }

  /** Parsing a form's own rendering of its tags gives the same tags. */
  lemma ParseTagsIdempotent(tags: string)
    ensures ParseTags(Join(ParseTags(tags), ", ")) == ParseTags(tags)
  {
    ParsedTagsClean(tags);
    TagsRoundTrip(ParseTags(tags));
  }

  // ---------------------------------------------------------------- filling the form

  /** `product?.x || default` for a number field: 0 shows as an empty input. */
  function NumberField(v: int): Option<int> {
    if v == 0 then None else Some(v)
  }

  /** The initial state: the product being edited, or an empty form. */
  function InitialForm(product: Option<ProductFields>): FormData {
    match product
    case None => FormData("", "", None, None, None, "piece", "", "")
    case Some(p) =>
      FormData(p.name, p.description, NumberField(p.price), NumberField(p.costPrice), NumberField(p.stock),
               if p.unit == "" then "piece" else p.unit, p.category, Join(p.tags, ", "))
  }

  // ---------------------------------------------------------------- validate and submit

  /** The fields `validate` can flag. */
  datatype Field = Name | Price | Stock | CostPrice

  /** What `validate` accepts: a name that is not all whitespace, a price
      above 0, and a stock and a cost price that are empty or not negative. */
  predicate Acceptable(f: FormData) {
    && Trim(f.name) != ""
    && f.price.Some? && f.price.value > 0
    && f.stock.GetOr(0) >= 0
    && f.costPrice.GetOr(0) >= 0
  }

  /** `validate()`: builds `newErrors` one field at a time and answers whether
      it stayed empty. */
  method Validate(f: FormData) returns (errors: map<Field, string>, ok: bool)
    ensures ok <==> Acceptable(f)
    ensures ok <==> errors == map[]
    ensures Name in errors <==> Trim(f.name) == ""
    ensures Price in errors <==> f.price.None? || f.price.value <= 0
    ensures Stock in errors <==> f.stock.GetOr(0) < 0
    ensures CostPrice in errors <==> f.costPrice.GetOr(0) < 0
  {
    errors := map[];
    if Trim(f.name) == "" {
      errors := errors[Name := "Product name is required"];
    }
    if f.price.None? || f.price.value <= 0 {
      errors := errors[Price := "Valid price is required"];
    }
    if f.stock.Some? && f.stock.value < 0 {
      errors := errors[Stock := "Stock cannot be negative"];
    }
    if f.costPrice.Some? && f.costPrice.value < 0 {
      errors := errors[CostPrice := "Cost price cannot be negative"];
    }
    ok := |errors| == 0;
    assert !ok ==> errors != map[] by {
      if !ok {
        var k :| k in errors;
      }
    }
  }

  /** `submitData`: the price as entered, an empty cost price or stock as 0,
      the tags parsed; the other fields are passed through as typed. */
  function SubmitData(f: FormData): (p: ProductFields)
    requires f.price.Some?
  {
    ProductFields(f.name, f.description, f.price.value, f.costPrice.GetOr(0), f.stock.GetOr(0),
                  f.unit, f.category, ParseTags(f.tags))
  }

  /** `handleSubmit`: `onSubmit` is called, with `submitData`, only when
      `validate()` found nothing. */
  method HandleSubmit(f: FormData) returns (errors: map<Field, string>, submitted: Option<ProductFields>)
    ensures submitted.Some? <==> Acceptable(f)
    ensures submitted.Some? <==> errors == map[]
    ensures submitted.Some? ==> f.price.Some? && submitted.value == SubmitData(f)
  {
    var ok;
    errors, ok := Validate(f);
    if !ok {
      return errors, None;
    }
    submitted := Some(SubmitData(f));
  }

  /** A submitted product satisfies the product schema's bounds: a price
      above 0, stock and cost price at least 0, and clean tags. */
  lemma SubmittedInBounds(f: FormData)
    requires Acceptable(f)
    ensures var p := SubmitData(f);
            && p.price > 0 && p.stock >= 0 && p.costPrice >= 0 && Trim(p.name) != ""
            && forall k :: 0 <= k < |p.tags| ==> CleanTag(p.tags[k])
  {
    ParsedTagsClean(f.tags);
  }

  /** Opening a product for editing and saving it untouched sends back the
      same product, provided its price is above 0 (a price of 0 shows as an
      empty field, which `validate` refuses), its other numbers are at least
      0, its name is not blank, it has a unit and its tags are clean. */
  lemma EditRoundTrip(p: ProductFields)
    requires p.price > 0 && p.stock >= 0 && p.costPrice >= 0 && Trim(p.name) != "" && p.unit != ""
    requires forall k :: 0 <= k < |p.tags| ==> CleanTag(p.tags[k])
    ensures Acceptable(InitialForm(Some(p)))
    ensures SubmitData(InitialForm(Some(p))) == p
  {
    var f := InitialForm(Some(p));
    assert f.tags == Join(p.tags, ", ");
    assert ParseTags(f.tags) == p.tags by {
      TagsRoundTrip(p.tags);
    }
    assert f.price == Some(p.price) && f.unit == p.unit && f.name == p.name;
    assert f.stock.GetOr(0) == p.stock && f.costPrice.GetOr(0) == p.costPrice;
  }

  /** A product with price 0 cannot be saved from its edit form as it opens. */
  lemma ZeroPriceNotEditable(p: ProductFields)
    requires p.price == 0
    ensures !Acceptable(InitialForm(Some(p)))
  {
  }

  /** An empty form is refused for its name and its price only. */
  lemma EmptyFormRefused()
    ensures var f := InitialForm(None);
            && !Acceptable(f)
            && Trim(f.name) == "" && f.price.None?
            && f.stock.GetOr(0) >= 0 && f.costPrice.GetOr(0) >= 0
  {
    assert Trim("") == "";
  }
}
