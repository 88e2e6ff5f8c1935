/**
 * The add-buyer form: eight buyer fields, a preview, and a confirmation
 * that sends the stored values unchanged.
 */
module AddBuyerForm {
  import opened Wrappers
  import opened ListingData

  datatype BuyerForm = BuyerForm(
    name: string,
    email: string,
    phoneNumber: string,
    location: string,
    priceRange: string,
    propertyType: string,
    area: string,
    constructionStatus: string)

  const DefaultForm := BuyerForm("", "", "", "", "", "House", "", "Ready to move")

  /** The buyer schema; `emailOk` is the email validator's verdict. */
  predicate BuyerSchemaValid(f: BuyerForm, emailOk: bool)
  {
    && f.name != "" && emailOk && f.phoneNumber != "" && f.location != ""
    && f.priceRange != "" && f.propertyType in PropertyTypes && f.area != ""
    && f.constructionStatus in ConstructionStatuses
  }

  /** The request body is the form itself, field for field. */
  function BuyerBody(f: BuyerForm): (body: map<string, string>)
    ensures body.Keys == {"name", "email", "phoneNumber", "location", "priceRange",
                          "propertyType", "area", "constructionStatus"}
    ensures body["name"] == f.name && body["email"] == f.email && body["phoneNumber"] == f.phoneNumber
    ensures body["location"] == f.location && body["priceRange"] == f.priceRange
    ensures body["propertyType"] == f.propertyType && body["area"] == f.area
    ensures body["constructionStatus"] == f.constructionStatus
  {
    map["name" := f.name, "email" := f.email, "phoneNumber" := f.phoneNumber,
        "location" := f.location, "priceRange" := f.priceRange,
        "propertyType" := f.propertyType, "area" := f.area,
        "constructionStatus" := f.constructionStatus]
  }

  /** No field is composed or renamed: the body determines the form. */
  lemma BuyerBodyFaithful(f: BuyerForm, g: BuyerForm)
    ensures BuyerBody(f) == BuyerBody(g) <==> f == g
    ensures BuyerBody(f)["priceRange"] == f.priceRange && BuyerBody(f)["area"] == f.area
  {
    if BuyerBody(f) == BuyerBody(g) {
      assert BuyerBody(f)["name"] == BuyerBody(g)["name"];
      assert BuyerBody(f)["email"] == BuyerBody(g)["email"];
      assert BuyerBody(f)["phoneNumber"] == BuyerBody(g)["phoneNumber"];
      assert BuyerBody(f)["location"] == BuyerBody(g)["location"];
      assert BuyerBody(f)["priceRange"] == BuyerBody(g)["priceRange"];
      assert BuyerBody(f)["propertyType"] == BuyerBody(g)["propertyType"];
      assert BuyerBody(f)["area"] == BuyerBody(g)["area"];
      assert BuyerBody(f)["constructionStatus"] == BuyerBody(g)["constructionStatus"];
    }
  }

  class BuyerFormView {
    var values: BuyerForm
    var isLoading: bool
    var showPreview: bool
    var formData: Option<BuyerForm>
    var wentBack: bool

    constructor ()
      ensures values == DefaultForm && !isLoading && !showPreview && formData == None && !wentBack
    {
      values := DefaultForm;
      isLoading, showPreview, formData, wentBack := false, false, None, false;
    }

    /** The user edits the fields. */
    method Input(v: BuyerForm)
      modifies this
      ensures values == v
      ensures isLoading == old(isLoading) && showPreview == old(showPreview)
      ensures formData == old(formData) && wentBack == old(wentBack)
    {
      values := v;
    }

    /** Submitting: valid values are stored and the preview opens; otherwise nothing changes. */
    method Submit(emailOk: bool)
      requires !isLoading
      modifies this
      ensures BuyerSchemaValid(old(values), emailOk) ==> formData == Some(values) && showPreview
      ensures !BuyerSchemaValid(old(values), emailOk) ==> formData == old(formData) && showPreview == old(showPreview)
      ensures values == old(values) && isLoading == old(isLoading) && wentBack == old(wentBack)
    {
      if BuyerSchemaValid(values, emailOk) {
        formData := Some(values);
        showPreview := true;
      }
    }

    /** The preview's Cancel: the stored values are dropped and the dialog closes. */
    method Cancel()
      requires !isLoading
      modifies this
      ensures formData == None && !showPreview
      ensures values == old(values) && isLoading == old(isLoading) && wentBack == old(wentBack)
    {
      formData := None;
      showPreview := false;
    }

    /** Confirming, up to the request: loading starts and the preview closes before the stored values are sent. */
    method StartFinalSubmit() returns (request: Option<map<string, string>>)
      requires !isLoading
      modifies this
      ensures old(formData).None? ==> request == None && isLoading == old(isLoading) && showPreview == old(showPreview)
      ensures old(formData).Some? ==> request == Some(BuyerBody(old(formData).value)) && isLoading && !showPreview
      ensures values == old(values) && formData == old(formData) && wentBack == old(wentBack)
    {
      request := None;
      if formData.Some? {
        isLoading := true;
        showPreview := false;
        request := Some(BuyerBody(formData.value));
      }
    }

    /** The request settles: only success resets the form and goes back; loading stops and the stored values are dropped. */
    method CompleteFinalSubmit(ok: bool)
      requires isLoading && formData.Some?
      modifies this
      ensures values == if ok then DefaultForm else old(values)
      ensures wentBack == (old(wentBack) || ok)
      ensures !isLoading && formData == None && showPreview == old(showPreview)
    {
      if ok {
        values := DefaultForm;
        wentBack := true;
      }
      isLoading := false;
      formData := None;
    }
  }
}
