/** The gallery strip: cards built by `addToGallery`, newest first, and the four
    sample images `loadGalleryImages` puts there when the page loads. */
module Gallery {
  import opened Title

  /** One gallery card: the image and its alt text (the prompt). The card's heading is
      not stored: it is always the title formatted from the alt text, as the card is
      never changed after it is built. The card's timestamp comes from the clock and is
      not part of the model. */
  datatype GalleryItem = GalleryItem(url: string, alt: string)
  {
    /** The card's heading. */
    function Title(): string {
      FormatPromptAsTitle(alt)
    }
  }

  /** The card `addToGallery(url, prompt)` builds. */
  function ItemFor(url: string, prompt: string): GalleryItem {
    GalleryItem(url, prompt)
  }

  datatype SampleImage = SampleImage(url: string, prompt: string)

  /** The fixed list `loadGalleryImages` walks through, in list order. */
  const SampleImages: seq<SampleImage> := [
    SampleImage("https://replicate.delivery/pbxt/4kXE7oP3haN6D4K0nlFk6QWwRlRaGu7hzSFvzP7UKOGwnYHhA/out-0.png",
                "A beautiful sunset over mountains, digital art style"),
    SampleImage("https://replicate.delivery/pbxt/7JjD78D2jqtpS1hBYjaKonMXfOFELWs5Xje7YnN9YUzunYHhA/out-0.png",
                "Underwater coral reef with colorful fish"),
    SampleImage("https://replicate.delivery/pbxt/7Ej0OQrhDhg9wIzgJVF9kOQhTfHRebHanrGNhXhynPi0nYHhA/out-0.png",
                "Cyberpunk cityscape at night with neon lights"),
    SampleImage("https://replicate.delivery/pbxt/1qBFTj9UCc7a0dwyk728MWdHXOzqR6TxthK7PzLcU5C9vr2QA/out-0.png",
                "Enchanted forest with magical creatures")
  ]

  /** The cards that prepending each image of `images` in turn puts in front of the
      gallery: the last image's card first. */
  function NewestFirst(images: seq<SampleImage>): seq<GalleryItem> {
    if images == [] then []
    else
      var last := images[|images| - 1];
      [ItemFor(last.url, last.prompt)] + NewestFirst(images[..|images| - 1])
  }

  /** The prefix one image longer has that image's card in front. */
  lemma NewestFirstStep(images: seq<SampleImage>, i: nat)
    requires i < |images|
    ensures NewestFirst(images[..i + 1]) == [ItemFor(images[i].url, images[i].prompt)] + NewestFirst(images[..i])
  {
    assert images[..i + 1][..i] == images[..i];
  }

  /** Putting a card in front of a concatenation puts it in front of its first part. */
  lemma PrependAssoc<T>(x: T, a: seq<T>, b: seq<T>)
    ensures [x] + (a + b) == ([x] + a) + b
  {
  }

  /** Prepending one by one reverses the order: card `k` belongs to the `k`-th image
      counted from the end, and there is one card per image. */
  lemma {:induction false} NewestFirstAt(images: seq<SampleImage>, k: nat)
    requires k < |images|
    ensures |NewestFirst(images)| == |images|
    ensures var image := images[|images| - 1 - k];
      NewestFirst(images)[k] == ItemFor(image.url, image.prompt)
  {
    NewestFirstLength(images);
    if k > 0 {
      var init := images[..|images| - 1];
      NewestFirstAt(init, k - 1);
      assert init[|init| - 1 - (k - 1)] == images[|images| - 1 - k];
    }
  }

  lemma {:induction false} NewestFirstLength(images: seq<SampleImage>)
    ensures |NewestFirst(images)| == |images|
  {
    if images != [] {
      NewestFirstLength(images[..|images| - 1]);
    }
  }

  /** After the page has loaded, the sample gallery holds one card per sample image in
      reverse list order: the forest first, the sunset last. */
  lemma SampleGalleryOrder()
    ensures |NewestFirst(SampleImages)| == 4
    ensures forall k :: 0 <= k < 4 ==>
      NewestFirst(SampleImages)[k] == ItemFor(SampleImages[3 - k].url, SampleImages[3 - k].prompt)
  {
    NewestFirstLength(SampleImages);
    assert |SampleImages| == 4;
    forall k | 0 <= k < 4
      ensures NewestFirst(SampleImages)[k] == ItemFor(SampleImages[3 - k].url, SampleImages[3 - k].prompt)
    {
      NewestFirstAt(SampleImages, k);
    }
  }
}
