/** The client and the server together: the `photos` and `features` texts
    the client puts in its payload are what the listing controller parses,
    so the uploaded URLs become the listing's images (appended on update)
    and the feature map arrives with its `image` merged in. */
module ListingFlow {
  import opened Json
  import Payment
  import ListingController

  /** A create request whose `photos` come from the client's uploads stores
      exactly those URLs, in order, as the new listing's images. */
  lemma CreatedImagesAreUploads(
    env: ListingController.Env, caller: ListingController.Principal, body: ListingController.Body,
    form: Payment.Form, upload: Payment.Uploader)
    requires Lawful(env.codec)
    requires Payment.CreateRequest(form, env.codec, upload).Some?
    requires |Payment.PhotoUrls(Payment.CreateFlow, form, upload)| > 0
    requires body.photos == ListingController.Text(Payment.CreateRequest(form, env.codec, upload).value["photos"])
    ensures ListingController.NewListing(env, caller, body).Ok? <==>
      !ListingController.Normalise(env.codec, body.features).Malformed?
    ensures ListingController.NewListing(env, caller, body).Ok? ==>
      ListingController.NewListing(env, caller, body).value.images == Payment.PhotoUrls(Payment.CreateFlow, form, upload)
  {
    var featureUrl := Payment.FirstUrl(Payment.FeatureUrls(Payment.CreateFlow, form, upload));
    var photoUrls := Payment.PhotoUrls(Payment.CreateFlow, form, upload);
    Payment.CreateRequestShape(form, env.codec, upload);
    Payment.AssemblePhotos(form, env.codec, featureUrl, photoUrls);
  }

  /** An update request whose `photos` come from the client's uploads
      appends exactly those URLs to the listing's images. */
  lemma UpdatedImagesAppendUploads(
    env: ListingController.Env, existing: ListingController.Listing, body: ListingController.Body,
    form: Payment.Form, upload: Payment.Uploader)
    requires Lawful(env.codec)
    requires |Payment.PhotoUrls(Payment.UpdateFlow, form, upload)| > 0
    requires body.photos == ListingController.Text(Payment.UpdateRequest(form, env.codec, upload)["photos"])
    requires ListingController.BuildUpdate(env, existing, body).Ok?
    ensures ListingController.ApplyUpdate(existing, ListingController.BuildUpdate(env, existing, body).value).images ==
      existing.images + Payment.PhotoUrls(Payment.UpdateFlow, form, upload)
  {
    var featureUrl := Payment.FirstUrl(Payment.FeatureUrls(Payment.UpdateFlow, form, upload));
    Payment.AssemblePhotos(form, env.codec, featureUrl, Payment.PhotoUrls(Payment.UpdateFlow, form, upload));
  }

  /** The `features` of an update payload always reach the server in a form
      it parses, so they never make the update fail; the stored value is the
      form's last features value with the feature image merged in, or the
      empty object for malformed text. */
  lemma UpdatedFeaturesAreMerged(
    env: ListingController.Env, existing: ListingController.Listing, body: ListingController.Body,
    form: Payment.Form, upload: Payment.Uploader)
    requires Lawful(env.codec)
    requires "features" in Payment.UpdateRequest(form, env.codec, upload)
    requires body.features == ListingController.Text(Payment.UpdateRequest(form, env.codec, upload)["features"])
    requires !ListingController.Normalise(env.codec, body.photos).Malformed?
    ensures Payment.LastText(form, "features").Some?
    ensures ListingController.BuildUpdate(env, existing, body).Ok?
    ensures var stored := ListingController.ApplyUpdate(existing, ListingController.BuildUpdate(env, existing, body).value).features;
      var featureUrl := Payment.FirstUrl(Payment.FeatureUrls(Payment.UpdateFlow, form, upload));
      match env.codec.parse(Payment.LastText(form, "features").value)
      case Some(v) => stored == Some(Payment.FeatureMerge(v, featureUrl))
      case None => stored == Some(Object(map[]))
  {
    var featureUrl := Payment.FirstUrl(Payment.FeatureUrls(Payment.UpdateFlow, form, upload));
    Payment.AssembleFeatures(form, env.codec, featureUrl, Payment.PhotoUrls(Payment.UpdateFlow, form, upload));
  }

  /** The `features` of a create payload that was sent reach the server as
      text it parses (a malformed entry would have stopped the client), and
      the stored value is the form's last features value with the feature
      image merged in. */
  lemma CreatedFeaturesAreMerged(
    env: ListingController.Env, caller: ListingController.Principal, body: ListingController.Body,
    form: Payment.Form, upload: Payment.Uploader)
    requires Lawful(env.codec)
    requires Payment.CreateRequest(form, env.codec, upload).Some?
    requires "features" in Payment.CreateRequest(form, env.codec, upload).value
    requires body.features == ListingController.Text(Payment.CreateRequest(form, env.codec, upload).value["features"])
    ensures Payment.LastText(form, "features").Some?
    ensures env.codec.parse(Payment.LastText(form, "features").value).Some?
    ensures !ListingController.Normalise(env.codec, body.features).Malformed?
    ensures ListingController.NewListing(env, caller, body).Ok? ==>
      var featureUrl := Payment.FirstUrl(Payment.FeatureUrls(Payment.CreateFlow, form, upload));
      ListingController.NewListing(env, caller, body).value.features ==
        Some(Payment.FeatureMerge(env.codec.parse(Payment.LastText(form, "features").value).value, featureUrl))
  {
    var featureUrl := Payment.FirstUrl(Payment.FeatureUrls(Payment.CreateFlow, form, upload));
    Payment.CreateRequestShape(form, env.codec, upload);
    Payment.AssembleFeatures(form, env.codec, featureUrl, Payment.PhotoUrls(Payment.CreateFlow, form, upload));
    Payment.LastTextExists(form, "features");
    var i :| 0 <= i < |form| && form[i] == Payment.Entry("features", Payment.Str(Payment.LastText(form, "features").value));
    assert !Payment.MalformedFeatures(env.codec, form[i]);
  }
}
