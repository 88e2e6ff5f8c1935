/**
 * The add-seller form: listing values with a currency-dependent bracket
 * list, an optional image of at most 5 MiB read as a data URL, and a
 * preview, confirm and submit sequence.
 */
module AddSellerForm {
  import opened Wrappers
  import opened ListingData

  /** The largest accepted image, in bytes. */
  const MaxImageBytes: nat := 5 * 1024 * 1024

  /**
   * A chosen file: its size, and what reading it as a data URL yields
   * (`None` when the reader fails).
   */
  datatype ImageFile = ImageFile(size: nat, dataUrl: Option<string>)

  /** The form defaults. */
  const DefaultForm := ListingForm("", "", "", "", "", "USD", "House", "", "sq ft", "Ready to move")

  /** What the preview shows and the confirmation sends: the values and the image as a data URL. */
  datatype Submission = Submission(form: ListingForm, image: Option<string>)

  /** The request body: the listing form body, plus the image when there is one. */
  function SellerBody(s: Submission): map<string, string>
  {
    var body := ListingFormBody(s.form);
    if s.image.Some? then body["image" := s.image.value] else body
  }

  /** The outcome of reading the chosen files. */
  datatype ImageCheck = TooLarge | Unreadable | Accepted(dataUrl: Option<string>)

  /** The size limit comes first; then a chosen file must be readable. */
  function CheckImage(files: seq<ImageFile>): (r: ImageCheck)
    ensures r == TooLarge <==> |files| > 0 && files[0].size > MaxImageBytes
    ensures r.Accepted? && |files| > 0 ==> r.dataUrl == files[0].dataUrl && r.dataUrl.Some?
    ensures |files| == 0 ==> r == Accepted(None)
    ensures |files| > 0 && files[0].size <= MaxImageBytes ==>
              r == (if files[0].dataUrl.Some? then Accepted(files[0].dataUrl) else Unreadable)
  {
    if |files| == 0 then Accepted(None)
    else if files[0].size > MaxImageBytes then TooLarge
    else if files[0].dataUrl.None? then Unreadable
    else Accepted(files[0].dataUrl)
  }

  /** Exactly 5 MiB is accepted, one byte more is not. */
  lemma ImageLimitBoundary(url: string)
    ensures CheckImage([ImageFile(5242880, Some(url))]) == Accepted(Some(url))
    ensures CheckImage([ImageFile(5242881, Some(url))]) == TooLarge
  {
  }

  /** The body drops currency and unit, composes price and area and passes everything else on. */
  lemma SellerBodyShape(s: Submission)
    ensures SellerBody(s).Keys == ListingFormBody(s.form).Keys + (if s.image.Some? then {"image"} else {})
    ensures "priceCurrency" !in SellerBody(s) && "areaUnit" !in SellerBody(s)
    ensures SellerBody(s)["priceRange"] == Compose(s.form.priceRange, s.form.priceCurrency)
    ensures SellerBody(s)["area"] == Compose(s.form.area, s.form.areaUnit)
    ensures forall k :: k in ListingFormBody(s.form) ==> SellerBody(s)[k] == ListingFormBody(s.form)[k]
    ensures SellerBody(s)["name"] == s.form.name && SellerBody(s)["email"] == s.form.email
    ensures SellerBody(s)["phoneNumber"] == s.form.phoneNumber && SellerBody(s)["location"] == s.form.location
    ensures SellerBody(s)["propertyType"] == s.form.propertyType
    ensures SellerBody(s)["constructionStatus"] == s.form.constructionStatus
    ensures s.image.Some? ==> SellerBody(s)["image"] == s.image.value
  {
  }

  class SellerForm {
    var values: ListingForm
    var imageError: bool
    var isLoading: bool
    var showPreview: bool
    var formData: Option<Submission>
    var wentBack: bool

    constructor ()
      ensures values == DefaultForm
      ensures !imageError && !isLoading && !showPreview && formData == None && !wentBack
    {
      values := DefaultForm;
      imageError, isLoading, showPreview, formData, wentBack := false, false, false, None, false;
    }

    /**
     * The user picks a currency. When the watched value changed, the effect
     * empties a non-empty bracket and leaves an empty one alone.
     */
    method ChangeCurrency(c: string)
      modifies this
      ensures values.priceCurrency == c
      ensures values.priceRange
              == if c != old(values.priceCurrency) && old(values.priceRange) != "" then "" else old(values.priceRange)
      ensures values == old(values).(priceCurrency := c, priceRange := values.priceRange)
      ensures isLoading == old(isLoading) && showPreview == old(showPreview) && formData == old(formData)
      ensures imageError == old(imageError) && wentBack == old(wentBack)
    {
      var before := values.priceCurrency;
      values := values.(priceCurrency := c);
      if values.priceCurrency != before && values.priceRange != "" {
        values := values.(priceRange := "");
      }
    }

    /** The user edits any field other than the currency. */
    method Input(v: ListingForm)
      modifies this
      ensures values == v.(priceCurrency := old(values).priceCurrency)
      ensures isLoading == old(isLoading) && showPreview == old(showPreview) && formData == old(formData)
      ensures imageError == old(imageError) && wentBack == old(wentBack)
    {
      values := v.(priceCurrency := values.priceCurrency);
    }

    /**
     * Submitting with the chosen files. Invalid values change nothing; an
     * oversized image sets the image error and opens no preview; an
     * unreadable one stops the handler; otherwise the values and the
     * image's data URL are stored and the preview opens.
     */
    method Submit(emailOk: bool, files: seq<ImageFile>)
      requires !isLoading
      modifies this
      ensures ListingSchemaValid(old(values), emailOk) && CheckImage(files).Accepted? ==>
                formData == Some(Submission(old(values), CheckImage(files).dataUrl)) && showPreview
                && imageError == old(imageError)
      ensures ListingSchemaValid(old(values), emailOk) && CheckImage(files) == TooLarge ==>
                imageError && formData == old(formData) && showPreview == old(showPreview)
      ensures !(ListingSchemaValid(old(values), emailOk) && CheckImage(files).Accepted?) ==>
                formData == old(formData) && showPreview == old(showPreview)
      ensures !(ListingSchemaValid(old(values), emailOk) && CheckImage(files) == TooLarge) ==>
                imageError == old(imageError)
      ensures values == old(values) && isLoading == old(isLoading) && wentBack == old(wentBack)
    {
      if !ListingSchemaValid(values, emailOk) {
        return;
      }
      var image: Option<string> := None;
      if |files| > 0 {
        if files[0].size > MaxImageBytes {
          imageError := true;
          return;
        }
        if files[0].dataUrl.None? {
          return;
        }
        image := files[0].dataUrl;
      }
      formData := Some(Submission(values, image));
      showPreview := true;
    }

    /** The preview's Cancel: the stored values are dropped and the dialog closes. */
    method Cancel()
      requires !isLoading
      modifies this
      ensures formData == None && !showPreview
      ensures values == old(values) && isLoading == old(isLoading)
      ensures imageError == old(imageError) && wentBack == old(wentBack)
    {
      formData := None;
      showPreview := false;
    }

    /** Confirming, up to the request: loading starts and the preview closes before the body is sent. */
    method StartFinalSubmit() returns (request: Option<map<string, string>>)
      requires !isLoading
      modifies this
      ensures old(formData).None? ==> request == None && isLoading == old(isLoading) && showPreview == old(showPreview)
      ensures old(formData).Some? ==> request == Some(SellerBody(old(formData).value)) && isLoading && !showPreview
      ensures values == old(values) && formData == old(formData)
      ensures imageError == old(imageError) && wentBack == old(wentBack)
    {
      request := None;
      if formData.Some? {
        isLoading := true;
        showPreview := false;
        request := Some(SellerBody(formData.value));
      }
    }

    /**
     * The request settles: on success the form is reset and the view goes
     * back; in every case loading stops and the stored values are dropped.
     */
    method CompleteFinalSubmit(ok: bool)
      requires isLoading && formData.Some?
      modifies this
      ensures values == if ok then DefaultForm else old(values)
      ensures wentBack == (old(wentBack) || ok)
      ensures !isLoading && formData == None
      ensures showPreview == old(showPreview) && imageError == old(imageError)
    {
      if ok {
        values := DefaultForm;
        wentBack := true;
      }
      isLoading := false;
      formData := None;
    }
  }
}
