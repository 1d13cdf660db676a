/** The static content the section component renders. */
module Content {
  import opened Wrappers

  /** One content unit: the text shown beside the device frame and the
      ordered screenshots shown inside it. */
  datatype Item = Item(title: string, description: string, subDescription: Option<string>, images: seq<string>)

  /** Every item has at least one screenshot; the carousels index into
      `images` without checking. */
  predicate HasImages(items: seq<Item>)
    ensures HasImages(items) <==> forall it :: it in items ==> |it.images| >= 1
  {
    forall i :: 0 <= i < |items| ==> |items[i].images| >= 1
  }
}
