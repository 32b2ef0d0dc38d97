/** The admin product form: the image lists it edits (existing image URLs,
    newly chosen files and their previews, kept index-aligned), the order in
    which the submitted form lists them, and the product schema. */
module AdminPage {
  import opened Js
  import Lists

  /** One `formData.append(name, value)`. */
  datatype Part<F> = FieldPart(key: string, value: Val) | UrlPart(url: string) | FilePart(file: F)

  /** The submitted form: every form value in order, then the existing
      images, then the new files, each under `images`. */
  function FormParts<F>(values: seq<(string, Val)>, images: seq<string>, files: seq<F>): (r: seq<Part<F>>)
    ensures |r| == |values| + |images| + |files|
    ensures forall i :: 0 <= i < |values| ==> r[i] == FieldPart(values[i].0, values[i].1)
    ensures forall i :: 0 <= i < |images| ==> r[|values| + i] == UrlPart(images[i])
    ensures forall i :: 0 <= i < |files| ==> r[|values| + |images| + i] == FilePart(files[i])
  {
    seq(|values|, i requires 0 <= i < |values| => FieldPart(values[i].0, values[i].1))
    + seq(|images|, i requires 0 <= i < |images| => UrlPart(images[i]))
    + seq(|files|, i requires 0 <= i < |files| => FilePart(files[i]))
  }

  class ImageEditor<F> {
    var currentImages: seq<string>
    var newImageFiles: seq<F>
    var previewUrls: seq<string>

    /** Each new file has its preview at the same position. */
    ghost predicate Aligned()
      reads this
    {
      |newImageFiles| == |previewUrls|
    }

    constructor ()
      ensures currentImages == [] && newImageFiles == [] && previewUrls == []
      ensures Aligned()
    {
      currentImages := [];
      newImageFiles := [];
      previewUrls := [];
    }

    /** `handleFileChange`: the chosen files and their object URLs (from
        `URL.createObjectURL`, given) go after the ones already there. */
    method HandleFileChange(files: seq<F>, urls: seq<string>)
      requires |urls| == |files|
      modifies this
      ensures newImageFiles == old(newImageFiles) + files
      ensures previewUrls == old(previewUrls) + urls
      ensures currentImages == old(currentImages)
      ensures old(Aligned()) ==> Aligned()
    {
      if |files| == 0 {
        return;
      }
      newImageFiles := newImageFiles + files;
      previewUrls := previewUrls + urls;
    }

    /** `moveImage`: swaps `index` with `index + direction` when the target
        is a position of the list, in both new-image lists together;
        otherwise nothing changes. */
    method MoveImage(index: int, direction: int, isNew: bool)
      requires Aligned()
      requires isNew ==> 0 <= index < |newImageFiles|
      requires !isNew ==> 0 <= index < |currentImages|
      modifies this
      ensures Aligned()
      ensures var newPos := index + direction;
              if isNew then
                && currentImages == old(currentImages)
                && (if 0 <= newPos < |old(newImageFiles)|
                    then newImageFiles == Lists.Swapped(old(newImageFiles), index, newPos)
                         && previewUrls == Lists.Swapped(old(previewUrls), index, newPos)
                    else newImageFiles == old(newImageFiles) && previewUrls == old(previewUrls))
              else
                && newImageFiles == old(newImageFiles) && previewUrls == old(previewUrls)
                && (if 0 <= newPos < |old(currentImages)|
                    then currentImages == Lists.Swapped(old(currentImages), index, newPos)
                    else currentImages == old(currentImages))
    {
      var newPos := index + direction;
      if isNew {
        if 0 <= newPos < |newImageFiles| {
          var updatedFiles := Lists.SwapCopy(newImageFiles, index, newPos);
          var updatedPreviews := Lists.SwapCopy(previewUrls, index, newPos);
          newImageFiles := updatedFiles;
          previewUrls := updatedPreviews;
        }
      } else {
        if 0 <= newPos < |currentImages| {
          var updated := Lists.SwapCopy(currentImages, index, newPos);
          currentImages := updated;
        }
      }
    }

    /** `removeImage`: the entry at `index` goes from the list it names, and
        from both new-image lists together. */
    method RemoveImage(index: int, isNew: bool)
      modifies this
      ensures isNew ==>
                && newImageFiles == Lists.RemoveAt(old(newImageFiles), index)
                && previewUrls == Lists.RemoveAt(old(previewUrls), index)
                && currentImages == old(currentImages)
      ensures !isNew ==>
                && currentImages == Lists.RemoveAt(old(currentImages), index)
                && newImageFiles == old(newImageFiles) && previewUrls == old(previewUrls)
      ensures old(Aligned()) ==> Aligned()
    {
      if isNew {
        newImageFiles := Lists.RemoveAt(newImageFiles, index);
        previewUrls := Lists.RemoveAt(previewUrls, index);
      } else {
        currentImages := Lists.RemoveAt(currentImages, index);
      }
    }

    /** `handleEdit`: the product's images (or none) become the existing
        list and the new-image lists empty. */
    method HandleEdit(images: Option<seq<string>>)
      modifies this
      ensures currentImages == (if images.Some? then images.value else [])
      ensures newImageFiles == [] && previewUrls == []
      ensures Aligned()
    {
      currentImages := if images.Some? then images.value else [];
      newImageFiles := [];
      previewUrls := [];
    }

    /** `resetImageState` */
    method ResetImageState()
      modifies this
      ensures currentImages == [] && newImageFiles == [] && previewUrls == []
      ensures Aligned()
    {
      currentImages := [];
      newImageFiles := [];
      previewUrls := [];
    }

    /** The `FormData` `handleSubmit` builds with its three `forEach` loops. */
    method SubmitParts(values: seq<(string, Val)>) returns (parts: seq<Part<F>>)
      ensures parts == FormParts(values, currentImages, newImageFiles)
    {
      parts := [];
      var i := 0;
      while i < |values|
        invariant 0 <= i <= |values|
        invariant parts == FormParts(values[..i], [], [])
      {
        parts := parts + [FieldPart(values[i].0, values[i].1)];
        i := i + 1;
      }
      assert values[..i] == values;
      var j := 0;
      while j < |currentImages|
        invariant 0 <= j <= |currentImages|
        invariant parts == FormParts(values, currentImages[..j], [])
      {
        parts := parts + [UrlPart(currentImages[j])];
        j := j + 1;
      }
      assert currentImages[..j] == currentImages;
      var k := 0;
      while k < |newImageFiles|
        invariant 0 <= k <= |newImageFiles|
        invariant parts == FormParts(values, currentImages, newImageFiles[..k])
      {
        parts := parts + [FilePart(newImageFiles[k])];
        k := k + 1;
      }
      assert newImageFiles[..k] == newImageFiles;
    }
  }

  /** Moving an image changes its order only: the length and the multiset of
      entries stay, and moving back restores the list. */
  lemma MovePreservesImages<T>(s: seq<T>, index: int, newPos: int)
    requires 0 <= index < |s| && 0 <= newPos < |s|
    ensures |Lists.Swapped(s, index, newPos)| == |s|
    ensures multiset(Lists.Swapped(s, index, newPos)) == multiset(s)
    ensures Lists.Swapped(Lists.Swapped(s, index, newPos), newPos, index) == s
  {
    var t := Lists.Swapped(s, index, newPos);
    var u := Lists.Swapped(t, newPos, index);
    assert forall k :: 0 <= k < |s| ==> u[k] == s[k];
  }

  /** Removing an entry from both new-image lists keeps each file next to
      its own preview: position i of both results comes from the same
      position of the inputs, the one after it from `index` on. */
  lemma RemoveKeepsPairs<F>(files: seq<F>, previews: seq<string>, index: int)
    requires |files| == |previews|
    ensures |Lists.RemoveAt(files, index)| == |Lists.RemoveAt(previews, index)|
    ensures forall i :: 0 <= i < |Lists.RemoveAt(files, index)| ==>
              var j := if 0 <= index <= i then i + 1 else i;
              0 <= j < |files| && j != index
              && Lists.RemoveAt(files, index)[i] == files[j] && Lists.RemoveAt(previews, index)[i] == previews[j]
  {
  }

  /** The product form's values as the schema sees them; an empty number
      input is `None`. */
  datatype ProductForm = ProductForm(
    title: string, brand: string, price: Option<real>, stock: Option<real>,
    description: string, categoryId: string)

  datatype ProductField = Title | Brand | Price | Stock | Description | CategoryId

  /** `ProductSchema`: the four strings are required, the price must be
      given and positive, the stock given and at least 0. */
  predicate ProductInvalid(f: ProductForm, field: ProductField) {
    match field
    case Title => f.title == ""
    case Brand => f.brand == ""
    case Price => f.price.None? || f.price.value <= 0.0
    case Stock => f.stock.None? || f.stock.value < 0.0
    case Description => f.description == ""
    case CategoryId => f.categoryId == ""
  }

  /** A product passes the schema iff every string is filled, the price is
      above 0 and the stock is not negative: a free product is refused, an
      out-of-stock one accepted. */
  lemma ProductSchemaBounds(f: ProductForm)
    ensures (forall field :: !ProductInvalid(f, field)) <==>
              f.title != "" && f.brand != "" && f.description != "" && f.categoryId != ""
              && f.price.Some? && f.price.value > 0.0 && f.stock.Some? && f.stock.value >= 0.0
  {
    if forall field :: !ProductInvalid(f, field) {
      assert !ProductInvalid(f, Title) && !ProductInvalid(f, Brand) && !ProductInvalid(f, Price);
      assert !ProductInvalid(f, Stock) && !ProductInvalid(f, Description) && !ProductInvalid(f, CategoryId);
    } else {
      var field :| ProductInvalid(f, field);
      match field
      case Title => case Brand => case Price => case Stock => case Description => case CategoryId =>
    }
  }
}
