/** The client side of listing creation and update: the image-upload loops
    (`uploadImageToCloudinary`, once in each flow) and the loops that turn
    the form's entries into the JSON payload sent to the server.

    A form is the sequence of its (key, value) entries, a value being a
    string or a file. The image host is an oracle from a form value to the
    upload's reply; the network calls themselves, toasts, navigation and
    local storage are not part of this model. Each method is proved to
    compute a specification function, and the properties of the payload are
    lemmas about those functions. */
module Payment {
  import opened Json

  /** A FormData value: a string, or a File (an opaque handle). */
  datatype FormValue = Str(text: string) | File(handle: nat)

  datatype Entry = Entry(key: string, value: FormValue)

  type Form = seq<Entry>

  /** The image host's answer. `Uploaded` is a reply with a truthy
      `success`; its `url` is empty when the reply carried none. `Failed`
      is a reply without `success`, or a request that threw. */
  datatype UploadReply = Uploaded(url: string) | Failed

  type Uploader = FormValue -> UploadReply

  /** The object sent to the listing endpoint: every value is a string. */
  type Payload = map<string, string>

  // ---------------------------------------------------------------------
  // FormData accessors

  /** `formData.getAll(key)`: the values under key, in entry order. */
  function GetAll(form: Form, key: string): (r: seq<FormValue>)
    ensures |r| <= |form|
    ensures forall v :: v in r <==> exists i :: 0 <= i < |form| && form[i].key == key && form[i].value == v
  {
    if form == [] then []
    else
      var r := (if form[0].key == key then [form[0].value] else []) + GetAll(form[1..], key);
      assert forall i :: 1 <= i < |form| ==> form[1..][i - 1] == form[i];
      r
  }

  /** getAll over two runs of entries is the first run's values followed by
      the second's: the values keep the entries' order. */
  lemma {:induction false} GetAllAppend(a: Form, b: Form, key: string)
    ensures GetAll(a + b, key) == GetAll(a, key) + GetAll(b, key)
  {
    if a == [] {
      assert a + b == b;
    } else {
      var head := if a[0].key == key then [a[0].value] else [];
      assert (a + b)[0] == a[0];
      assert (a + b)[1..] == a[1..] + b;
      GetAllAppend(a[1..], b, key);
      calc {
        GetAll(a + b, key);
        head + GetAll(a[1..] + b, key);
        head + (GetAll(a[1..], key) + GetAll(b, key));
        (head + GetAll(a[1..], key)) + GetAll(b, key);
      }
    }
  }

  /** An entry under another key adds nothing; one under key adds its value
      at the end. */
  lemma GetAllSnoc(form: Form, e: Entry, key: string)
    ensures GetAll(form + [e], key) == GetAll(form, key) + (if e.key == key then [e.value] else [])
  {
    GetAllAppend(form, [e], key);
    assert [e][1..] == [];
  }

  /** `formData.get(key)`: the first value under key, or null (None). */
  function Get(form: Form, key: string): (r: Option<FormValue>)
    ensures r.Some? ==> exists i :: 0 <= i < |form| && form[i].key == key && form[i].value == r.value &&
                                    (forall j :: 0 <= j < i ==> form[j].key != key)
    ensures r.None? ==> forall i :: 0 <= i < |form| ==> form[i].key != key
  {
    if form == [] then None
    else if form[0].key == key then Some(form[0].value)
    else
      var r := Get(form[1..], key);
      assert forall i :: 1 <= i < |form| ==> form[1..][i - 1] == form[i];
      r
  }

  /** get returns the first of the values getAll returns. */
  lemma {:induction false} GetIsFirstOfGetAll(form: Form, key: string)
    ensures Get(form, key) == if |GetAll(form, key)| > 0 then Some(GetAll(form, key)[0]) else None
  {
    if form != [] && form[0].key != key {
      GetIsFirstOfGetAll(form[1..], key);
    }
  }

  /** JavaScript truthiness of a FormData value: only the empty string is
      falsy (a File is an object). */
  predicate Truthy(v: FormValue): (b: bool)
    ensures b <==> v != Str("")
  {
    v.File? || v.text != ""
  }

  /** The value of the last string entry under key, if any. */
  function LastText(form: Form, key: string): (r: Option<string>)
  {
    if form == [] then None
    else
      var e := form[|form| - 1];
      if e.key == key && e.value.Str? then Some(e.value.text)
      else LastText(form[..|form| - 1], key)
  }

  /** The last string entry exists exactly when some string entry has the
      key, and it is one of them. */
  lemma {:induction false} LastTextExists(form: Form, key: string)
    ensures LastText(form, key).Some? <==>
      exists i :: 0 <= i < |form| && form[i].key == key && form[i].value.Str?
    ensures LastText(form, key).Some? ==>
      exists i :: 0 <= i < |form| && form[i] == Entry(key, Str(LastText(form, key).value)) &&
        forall j :: i < j < |form| ==> !(form[j].key == key && form[j].value.Str?)
  {
    if form != [] {
      var init := form[..|form| - 1];
      LastTextExists(init, key);
      assert forall i :: 0 <= i < |init| ==> init[i] == form[i];
    }
  }

  // ---------------------------------------------------------------------
  // The upload loops

  /** Whether a loop keeps a reply's URL: the create flow checks
      `result.success`, the update flow `result.success && result.url`. */
  predicate Accepted(reply: UploadReply, needUrl: bool) {
    reply.Uploaded? && (!needUrl || reply.url != "")
  }

  /** The URLs a sequential upload loop collects: those of the accepted
      replies, in the order of the files. */
  function Collected(files: seq<FormValue>, upload: Uploader, needUrl: bool): (r: seq<string>)
    ensures |r| <= |files|
  {
    if files == [] then []
    else
      var init := Collected(files[..|files| - 1], upload, needUrl);
      var reply := upload(files[|files| - 1]);
      if Accepted(reply, needUrl) then init + [reply.url] else init
  }

  /** Uploading two batches one after the other collects the first batch's
      URLs followed by the second's: relative order is kept. */
  lemma {:induction false} CollectedAppend(a: seq<FormValue>, b: seq<FormValue>, upload: Uploader, needUrl: bool)
    ensures Collected(a + b, upload, needUrl) == Collected(a, upload, needUrl) + Collected(b, upload, needUrl)
  {
    if b == [] {
      assert a + b == a;
    } else {
      var b' := b[..|b| - 1];
      assert (a + b)[..|a + b| - 1] == a + b';
      assert (a + b)[|a + b| - 1] == b[|b| - 1];
      CollectedAppend(a, b', upload, needUrl);
    }
  }

  /** A URL is collected exactly when some file's upload was accepted with
      that URL. */
  lemma {:induction false} CollectedMembership(files: seq<FormValue>, upload: Uploader, needUrl: bool, u: string)
    ensures u in Collected(files, upload, needUrl) <==>
      exists i :: 0 <= i < |files| && Accepted(upload(files[i]), needUrl) && upload(files[i]).url == u
  {
    if files != [] {
      var init := files[..|files| - 1];
      CollectedMembership(init, upload, needUrl, u);
      assert forall i :: 0 <= i < |init| ==> init[i] == files[i];
    }
  }

  /** Every collected URL came back, accepted, for one of the files. */
  lemma {:induction false} CollectedFrom(files: seq<FormValue>, upload: Uploader, needUrl: bool)
    ensures forall u :: u in Collected(files, upload, needUrl) ==>
      exists v :: v in files && Accepted(upload(v), needUrl) && upload(v) == Uploaded(u)
  {
    if files != [] {
      var init := files[..|files| - 1];
      CollectedFrom(init, upload, needUrl);
      assert forall v :: v in init ==> v in files;
      assert files[|files| - 1] in files;
    }
  }

  /** When every upload is accepted, the loop returns every URL, one per
      file, in file order. */
  lemma {:induction false} CollectedAllAccepted(files: seq<FormValue>, upload: Uploader, needUrl: bool)
    requires forall i :: 0 <= i < |files| ==> Accepted(upload(files[i]), needUrl)
    ensures |Collected(files, upload, needUrl)| == |files|
    ensures forall i :: 0 <= i < |files| ==> upload(files[i]) == Uploaded(Collected(files, upload, needUrl)[i])
  {
    if files != [] {
      var init := files[..|files| - 1];
      assert forall i :: 0 <= i < |init| ==> init[i] == files[i];
      CollectedAllAccepted(init, upload, needUrl);
    }
  }

  /** `imageFiles.filter(file => file instanceof File && file !== undefined)`. */
  function Files(values: seq<FormValue>): (r: seq<FormValue>)
    ensures |r| <= |values|
    ensures forall v :: v in r ==> v.File? && v in values
    ensures forall v :: v in values && v.File? ==> v in r
  {
    if values == [] then []
    else (if values[0].File? then [values[0]] else []) + Files(values[1..])
  }

  /** Filtering keeps relative order: it distributes over concatenation. */
  lemma {:induction false} FilesAppend(a: seq<FormValue>, b: seq<FormValue>)
    ensures Files(a + b) == Files(a) + Files(b)
  {
    if a == [] {
      assert a + b == b;
    } else {
      assert (a + b)[0] == a[0];
      assert (a + b)[1..] == a[1..] + b;
      FilesAppend(a[1..], b);
    }
  }

  /** createListing's `uploadImageToCloudinary`: every value is sent, and a
      reply with `success` contributes its URL. */
  method UploadForCreate(imageFiles: seq<FormValue>, upload: Uploader) returns (photos: seq<string>)
    ensures photos == Collected(imageFiles, upload, false)
  {
    photos := [];
    for i := 0 to |imageFiles|
      invariant photos == Collected(imageFiles[..i], upload, false)
    {
      assert imageFiles[..i + 1][..i] == imageFiles[..i];
      var result := upload(imageFiles[i]);
      if result.Uploaded? {
        photos := photos + [result.url];
      }
    }
    assert imageFiles[..|imageFiles|] == imageFiles;
  }

  /** updateListing's `uploadImageToCloudinary`: strings are dropped first,
      and a reply contributes only with both `success` and a URL. */
  method UploadForUpdate(imageFiles: seq<FormValue>, upload: Uploader) returns (photos: seq<string>)
    ensures photos == Collected(Files(imageFiles), upload, true)
  {
    var validFiles := Files(imageFiles);
    photos := [];
    for i := 0 to |validFiles|
      invariant photos == Collected(validFiles[..i], upload, true)
    {
      assert validFiles[..i + 1][..i] == validFiles[..i];
      var result := upload(validFiles[i]);
      if result.Uploaded? && result.url != "" {
        photos := photos + [result.url];
      }
    }
    assert validFiles[..|validFiles|] == validFiles;
  }

  /** The update flow only ever sends files, and every URL it keeps is
      non-empty and came back for one of the form's files. */
  lemma UpdateUploadsComeFromFiles(values: seq<FormValue>, upload: Uploader, u: string)
    requires u in Collected(Files(values), upload, true)
    ensures u != ""
    ensures exists v :: v in values && v.File? && upload(v) == Uploaded(u)
  {
    CollectedMembership(Files(values), upload, true, u);
    var i :| 0 <= i < |Files(values)| && Accepted(upload(Files(values)[i]), true) && upload(Files(values)[i]).url == u;
    assert Files(values)[i] in Files(values);
  }

  /** On a form whose values are all files with URL-carrying replies, the two
      flows' upload loops agree. */
  lemma {:induction false} UploadFlowsAgree(values: seq<FormValue>, upload: Uploader)
    requires forall i :: 0 <= i < |values| ==> values[i].File?
    requires forall i :: 0 <= i < |values| ==> upload(values[i]).Uploaded? ==> upload(values[i]).url != ""
    ensures Collected(Files(values), upload, true) == Collected(values, upload, false)
  {
    if values != [] {
      assert forall i :: 1 <= i < |values| ==> values[1..][i - 1] == values[i];
      UploadFlowsAgree(values[1..], upload);
      assert values == [values[0]] + values[1..];
      assert Files(values) == [values[0]] + Files(values[1..]);
      CollectedAppend([values[0]], Files(values[1..]), upload, true);
      CollectedAppend([values[0]], values[1..], upload, false);
      assert [values[0]][..0] == [];
    }
  }

  // ---------------------------------------------------------------------
  // The payload loops

  /** `featuresObj.image = featureUrls[0]` followed by JSON.stringify: an
      object gains (or has replaced) its `image` key; on an array the
      property is set but not serialised, so the value is unchanged. */
  function FeatureMerge(v: Value, featureUrl: Option<string>): (r: Value)
    ensures featureUrl.None? || v.Array? ==> r == v
    ensures v.Object? && featureUrl.Some? ==>
      && r.Object?
      && r.fields.Keys == v.fields.Keys + {"image"}
      && r.fields["image"] == featureUrl.value
      && forall k :: k in v.fields && k != "image" ==> r.fields[k] == v.fields[k]
  {
    if v.Object? && featureUrl.Some? then Object(v.fields["image" := featureUrl.value]) else v
  }

  /** The create flow's `features` entry: JSON.parse is not caught, so
      malformed text aborts the whole call (None). */
  function CreateFeatures(codec: Codec, text: string, featureUrl: Option<string>): (r: Option<string>)
    ensures r.None? <==> codec.parse(text).None?
  {
    match codec.parse(text)
    case None => None
    case Some(v) => Some(codec.stringify(FeatureMerge(v, featureUrl)))
  }

  /** The update flow's `features` entry: malformed text becomes '{}'. */
  function UpdateFeatures(codec: Codec, text: string, featureUrl: Option<string>): (r: string)
    ensures codec.parse(text).None? ==> r == "{}"
    ensures codec.parse(text).Some? ==> Some(r) == CreateFeatures(codec, text, featureUrl)
  {
    match codec.parse(text)
    case None => "{}"
    case Some(v) => codec.stringify(FeatureMerge(v, featureUrl))
  }

  /** What the update loop stores under key for the string s. */
  function FieldValue(codec: Codec, featureUrl: Option<string>, key: string, s: string): string
  {
    if key == "features" then UpdateFeatures(codec, s, featureUrl) else s
  }

  /** The update flow's `for ... of formData.entries()` loop: files are
      skipped and a later string entry overwrites an earlier one. */
  function UpdateFill(entries: Form, codec: Codec, featureUrl: Option<string>): Payload
  {
    if entries == [] then map[]
    else
      var p := UpdateFill(entries[..|entries| - 1], codec, featureUrl);
      var e := entries[|entries| - 1];
      match e.value
      case File(_) => p
      case Str(s) => p[e.key := FieldValue(codec, featureUrl, e.key, s)]
  }

  /** The create flow's loop, which aborts at the first malformed
      `features` text. */
  function CreateFill(entries: Form, codec: Codec, featureUrl: Option<string>): Option<Payload>
  {
    if entries == [] then Some(map[])
    else
      match CreateFill(entries[..|entries| - 1], codec, featureUrl)
      case None => None
      case Some(p) =>
        var e := entries[|entries| - 1];
        match e.value
        case File(_) => Some(p)
        case Str(s) =>
          if e.key == "features" then
            match CreateFeatures(codec, s, featureUrl)
            case None => None
            case Some(t) => Some(p[e.key := t])
          else Some(p[e.key := s])
  }

  /** A string entry under `features` whose text does not parse. */
  predicate MalformedFeatures(codec: Codec, e: Entry) {
    e.key == "features" && e.value.Str? && codec.parse(e.value.text).None?
  }

  /** The create loop aborts exactly when some `features` entry is malformed,
      wherever it stands. */
  lemma {:induction false} CreateFillAborts(entries: Form, codec: Codec, featureUrl: Option<string>)
    ensures CreateFill(entries, codec, featureUrl).None? <==>
      exists i :: 0 <= i < |entries| && MalformedFeatures(codec, entries[i])
  {
    if entries != [] {
      var init := entries[..|entries| - 1];
      CreateFillAborts(init, codec, featureUrl);
      assert forall i :: 0 <= i < |init| ==> init[i] == entries[i];
    }
  }

  /** When the create loop does not abort, it builds what the update loop
      builds. */
  lemma {:induction false} CreateFillAgrees(entries: Form, codec: Codec, featureUrl: Option<string>)
    requires CreateFill(entries, codec, featureUrl).Some?
    ensures CreateFill(entries, codec, featureUrl).value == UpdateFill(entries, codec, featureUrl)
  {
    if entries != [] {
      CreateFillAgrees(entries[..|entries| - 1], codec, featureUrl);
    }
  }

  /** Once a prefix of the form has aborted the create loop, the whole form
      does. */
  lemma {:induction false} CreateFillAbortSticks(entries: Form, codec: Codec, featureUrl: Option<string>, n: nat)
    requires n <= |entries|
    requires CreateFill(entries[..n], codec, featureUrl).None?
    ensures CreateFill(entries, codec, featureUrl).None?
    decreases |entries| - n
  {
    if n < |entries| {
      assert entries[..n + 1][..n] == entries[..n];
      CreateFillAbortSticks(entries, codec, featureUrl, n + 1);
    } else {
      assert entries[..n] == entries;
    }
  }

  /** For duplicate keys the last string entry wins, and a key carried only
      by files (or by nothing) is absent. */
  lemma {:induction false} UpdateFillLastWins(entries: Form, codec: Codec, featureUrl: Option<string>, k: string)
    ensures k in UpdateFill(entries, codec, featureUrl) <==> LastText(entries, k).Some?
    ensures LastText(entries, k).Some? ==>
      UpdateFill(entries, codec, featureUrl)[k] == FieldValue(codec, featureUrl, k, LastText(entries, k).value)
  {
    if entries != [] {
      UpdateFillLastWins(entries[..|entries| - 1], codec, featureUrl, k);
    }
  }

  /** `if (photoUrls.length > 0) payload.photos = JSON.stringify(photoUrls)`. */
  function WithPhotos(p: Payload, codec: Codec, photoUrls: seq<string>): (r: Payload)
    ensures |photoUrls| == 0 ==> r == p
    ensures |photoUrls| > 0 ==>
      r.Keys == p.Keys + {"photos"} && r["photos"] == codec.stringify(Array(photoUrls))
    ensures forall k :: k in p && k != "photos" ==> k in r && r[k] == p[k]
  {
    if |photoUrls| > 0 then p["photos" := codec.stringify(Array(photoUrls))] else p
  }

  /** The payload built from the form, given the first feature-image URL and
      the photo URLs. */
  function Assemble(form: Form, codec: Codec, featureUrl: Option<string>, photoUrls: seq<string>): Payload
  {
    WithPhotos(UpdateFill(form, codec, featureUrl), codec, photoUrls)
  }

  /** Every key of the payload is `photos` set from the uploads or the key
      of some string entry: no key reaches it through a File. */
  lemma AssembleKeys(form: Form, codec: Codec, featureUrl: Option<string>, photoUrls: seq<string>, k: string)
    requires k in Assemble(form, codec, featureUrl, photoUrls)
    ensures (k == "photos" && |photoUrls| > 0) ||
      exists i :: 0 <= i < |form| && form[i].key == k && form[i].value.Str?
  {
    UpdateFillLastWins(form, codec, featureUrl, k);
    LastTextExists(form, k);
  }

  /** A key other than `features` and an overriding `photos` holds the
      last string value given for it, and is absent when there is none. */
  lemma AssemblePlainField(form: Form, codec: Codec, featureUrl: Option<string>, photoUrls: seq<string>, k: string)
    requires k != "features" && !(k == "photos" && |photoUrls| > 0)
    ensures k in Assemble(form, codec, featureUrl, photoUrls) <==> LastText(form, k).Some?
    ensures LastText(form, k).Some? ==> Assemble(form, codec, featureUrl, photoUrls)[k] == LastText(form, k).value
  {
    UpdateFillLastWins(form, codec, featureUrl, k);
  }

  /** Uploaded photo URLs, when there are any, override a `photos` entry of
      the form and decode back to the URL list; otherwise the form's entry
      (if any) is kept. */
  lemma AssemblePhotos(form: Form, codec: Codec, featureUrl: Option<string>, photoUrls: seq<string>)
    requires Lawful(codec)
    ensures var r := Assemble(form, codec, featureUrl, photoUrls);
      |photoUrls| > 0 ==> "photos" in r && codec.parse(r["photos"]) == Some(Array(photoUrls))
    ensures var r := Assemble(form, codec, featureUrl, photoUrls);
      |photoUrls| == 0 ==>
        ("photos" in r <==> LastText(form, "photos").Some?) &&
        ("photos" in r ==> r["photos"] == LastText(form, "photos").value)
  {
    ParseStringified(codec, Array(photoUrls));
    UpdateFillLastWins(form, codec, featureUrl, "photos");
  }

  /** The serialised `features` decodes to the last `features` text's value
      with `image` merged in when there is a feature URL, and to the empty
      object when that text is malformed. */
  lemma AssembleFeatures(form: Form, codec: Codec, featureUrl: Option<string>, photoUrls: seq<string>)
    requires Lawful(codec)
    ensures var r := Assemble(form, codec, featureUrl, photoUrls);
      "features" in r <==> LastText(form, "features").Some?
    ensures var r := Assemble(form, codec, featureUrl, photoUrls);
      LastText(form, "features").Some? ==>
        var s := LastText(form, "features").value;
        match codec.parse(s)
        case Some(v) => codec.parse(r["features"]) == Some(FeatureMerge(v, featureUrl))
        case None => r["features"] == "{}" && codec.parse(r["features"]) == Some(Object(map[]))
  {
    UpdateFillLastWins(form, codec, featureUrl, "features");
    var s := LastText(form, "features");
    if s.Some? && codec.parse(s.value).Some? {
      ParseStringified(codec, FeatureMerge(codec.parse(s.value).value, featureUrl));
    }
  }

  // ---------------------------------------------------------------------
  // The two flows

  datatype Flow = CreateFlow | UpdateFlow

  /** What the flow's `uploadImageToCloudinary` returns for the values. */
  function Uploads(flow: Flow, values: seq<FormValue>, upload: Uploader): (r: seq<string>)
    ensures |r| <= |values|
    ensures forall u :: u in r ==> exists v :: v in values && upload(v) == Uploaded(u)
    ensures flow == UpdateFlow ==> forall u :: u in r ==> u != ""
    ensures forall i ::
      (0 <= i < |values| && (flow == UpdateFlow ==> values[i].File?) && Accepted(upload(values[i]), flow == UpdateFlow))
      ==> upload(values[i]).url in r
  {
    match flow
    case CreateFlow =>
      CollectedFrom(values, upload, false);
      assert forall i :: 0 <= i < |values| && Accepted(upload(values[i]), false) ==>
        upload(values[i]).url in Collected(values, upload, false) by {
        forall i | 0 <= i < |values| && Accepted(upload(values[i]), false) {
          CollectedMembership(values, upload, false, upload(values[i]).url);
        }
      }
      Collected(values, upload, false)
    case UpdateFlow =>
      CollectedFrom(Files(values), upload, true);
      assert forall i :: 0 <= i < |values| && values[i].File? && Accepted(upload(values[i]), true) ==>
        upload(values[i]).url in Collected(Files(values), upload, true) by {
        forall i | 0 <= i < |values| && values[i].File? && Accepted(upload(values[i]), true)
          ensures upload(values[i]).url in Collected(Files(values), upload, true)
        {
          assert values[i] in Files(values);
          var j :| 0 <= j < |Files(values)| && Files(values)[j] == values[i];
          CollectedMembership(Files(values), upload, true, upload(values[i]).url);
        }
      }
      Collected(Files(values), upload, true)
  }

  /** The upload loops keep input order: uploading values in two batches
      gives the first batch's URLs followed by the second's. */
  lemma UploadsAppend(flow: Flow, a: seq<FormValue>, b: seq<FormValue>, upload: Uploader)
    ensures Uploads(flow, a + b, upload) == Uploads(flow, a, upload) + Uploads(flow, b, upload)
  {
    match flow
    case CreateFlow => CollectedAppend(a, b, upload, false);
    case UpdateFlow =>
      FilesAppend(a, b);
      CollectedAppend(Files(a), Files(b), upload, true);
  }

  /** `photoUrls`: the uploads of the `file` entries, if there are any; each
      URL came back for the upload of one of them. */
  function PhotoUrls(flow: Flow, form: Form, upload: Uploader): (r: seq<string>)
    ensures |r| <= |GetAll(form, "file")|
    ensures forall u :: u in r ==> exists v :: v in GetAll(form, "file") && upload(v) == Uploaded(u)
    ensures GetAll(form, "file") == [] ==> r == []
    ensures GetAll(form, "file") != [] ==> r == Uploads(flow, GetAll(form, "file"), upload)
  {
    var files := GetAll(form, "file");
    if |files| > 0 then Uploads(flow, files, upload) else []
  }

  /** `featureUrls`: the upload of the first `featureFile` value, if it is
      truthy; at most one URL, present exactly when that upload is kept
      (the update flow also drops a value that is not a File, and a reply
      without a URL). */
  function FeatureUrls(flow: Flow, form: Form, upload: Uploader): (r: seq<string>)
    ensures |r| <= 1
    ensures |r| == 1 <==>
      && Get(form, "featureFile").Some?
      && Truthy(Get(form, "featureFile").value)
      && (flow == UpdateFlow ==> Get(form, "featureFile").value.File?)
      && Accepted(upload(Get(form, "featureFile").value), flow == UpdateFlow)
    ensures |r| == 1 ==> upload(Get(form, "featureFile").value) == Uploaded(r[0])
  {
    match Get(form, "featureFile")
    case Some(v) =>
      if Truthy(v) then
        assert [v][..0] == [];
        Uploads(flow, [v], upload)
      else []
    case None => []
  }

  /** The first feature-image URL (`featureUrls[0]` when non-empty). */
  function FirstUrl(urls: seq<string>): Option<string>
  {
    if |urls| > 0 then Some(urls[0]) else None
  }

  /** The payload createListing would post, or None when it throws first
      (then no listing request is sent). */
  function CreateRequest(form: Form, codec: Codec, upload: Uploader): Option<Payload>
  {
    var featureUrl := FirstUrl(FeatureUrls(CreateFlow, form, upload));
    match CreateFill(form, codec, featureUrl)
    case None => None
    case Some(p) => Some(WithPhotos(p, codec, PhotoUrls(CreateFlow, form, upload)))
  }

  /** The payload updateListing puts. */
  function UpdateRequest(form: Form, codec: Codec, upload: Uploader): Payload
  {
    Assemble(form, codec, FirstUrl(FeatureUrls(UpdateFlow, form, upload)), PhotoUrls(UpdateFlow, form, upload))
  }

  /** The create flow sends the same payload as the update flow's loop would
      build from its own uploads, unless a `features` entry is malformed, in
      which case it sends nothing. */
  lemma CreateRequestShape(form: Form, codec: Codec, upload: Uploader)
    ensures CreateRequest(form, codec, upload).None? <==>
      exists i :: 0 <= i < |form| && MalformedFeatures(codec, form[i])
    ensures CreateRequest(form, codec, upload).Some? ==>
      CreateRequest(form, codec, upload).value ==
        Assemble(form, codec, FirstUrl(FeatureUrls(CreateFlow, form, upload)), PhotoUrls(CreateFlow, form, upload))
  {
    var featureUrl := FirstUrl(FeatureUrls(CreateFlow, form, upload));
    CreateFillAborts(form, codec, featureUrl);
    if CreateFill(form, codec, featureUrl).Some? {
      CreateFillAgrees(form, codec, featureUrl);
    }
  }

  /** createListing's `for ... of formData.entries()` loop. */
  method CreateEntriesLoop(formData: Form, codec: Codec, featureUrls: seq<string>) returns (r: Option<Payload>)
    ensures r == CreateFill(formData, codec, FirstUrl(featureUrls))
  {
    ghost var featureUrl := FirstUrl(featureUrls);
    var payload: Payload := map[];
    for i := 0 to |formData|
      invariant CreateFill(formData[..i], codec, featureUrl) == Some(payload)
    {
      assert formData[..i + 1][..i] == formData[..i];
      var entry := formData[i];
      if entry.value.File? {
        continue;
      }
      if entry.key == "features" {
        var featuresObj := codec.parse(entry.value.text);
        if featuresObj.None? {
          CreateFillAbortSticks(formData, codec, featureUrl, i + 1);
          return None;
        }
        var merged := featuresObj.value;
        if |featureUrls| > 0 && merged.Object? {
          merged := Object(merged.fields["image" := featureUrls[0]]);
        }
        payload := payload[entry.key := codec.stringify(merged)];
      } else {
        payload := payload[entry.key := entry.value.text];
      }
    }
    assert formData[..|formData|] == formData;
    r := Some(payload);
  }

  /** updateListing's `for ... of formData.entries()` loop. */
  method UpdateEntriesLoop(formData: Form, codec: Codec, featureUrls: seq<string>) returns (payload: Payload)
    ensures payload == UpdateFill(formData, codec, FirstUrl(featureUrls))
  {
    ghost var featureUrl := FirstUrl(featureUrls);
    payload := map[];
    for i := 0 to |formData|
      invariant UpdateFill(formData[..i], codec, featureUrl) == payload
    {
      assert formData[..i + 1][..i] == formData[..i];
      var entry := formData[i];
      if entry.value.File? {
        continue;
      }
      if entry.key == "features" {
        var featuresObj := codec.parse(entry.value.text);
        if featuresObj.Some? {
          var merged := featuresObj.value;
          if |featureUrls| > 0 && merged.Object? {
            merged := Object(merged.fields["image" := featureUrls[0]]);
          }
          payload := payload[entry.key := codec.stringify(merged)];
        } else {
          payload := payload[entry.key := "{}"];
        }
      } else {
        payload := payload[entry.key := entry.value.text];
      }
    }
    assert formData[..|formData|] == formData;
  }

  /** createListing up to the POST: the uploads, then the entries loop, then
      the `photos` override. None: JSON.parse threw and nothing is posted. */
  method CreateListingPayload(formData: Form, codec: Codec, upload: Uploader) returns (r: Option<Payload>)
    ensures r == CreateRequest(formData, codec, upload)
  {
    var photoUrls: seq<string> := [];
    var files := GetAll(formData, "file");
    if |files| > 0 {
      photoUrls := UploadForCreate(files, upload);
    }
    var featureUrls: seq<string> := [];
    var featureFile := Get(formData, "featureFile");
    if featureFile.Some? && Truthy(featureFile.value) {
      featureUrls := UploadForCreate([featureFile.value], upload);
    }
    assert featureUrls == FeatureUrls(CreateFlow, formData, upload);

    r := CreateEntriesLoop(formData, codec, featureUrls);
    if r.Some? && |photoUrls| > 0 {
      r := Some(r.value["photos" := codec.stringify(Array(photoUrls))]);
    }
  }

  /** updateListing up to the PUT. */
  method UpdateListingPayload(formData: Form, codec: Codec, upload: Uploader) returns (payload: Payload)
    ensures payload == UpdateRequest(formData, codec, upload)
  {
    var photoUrls: seq<string> := [];
    var files := GetAll(formData, "file");
    if |files| > 0 {
      photoUrls := UploadForUpdate(files, upload);
    }
    var featureUrls: seq<string> := [];
    var featureFile := Get(formData, "featureFile");
    if featureFile.Some? && Truthy(featureFile.value) {
      featureUrls := UploadForUpdate([featureFile.value], upload);
    }
    assert featureUrls == FeatureUrls(UpdateFlow, formData, upload);

    payload := UpdateEntriesLoop(formData, codec, featureUrls);
    if |photoUrls| > 0 {
      payload := payload["photos" := codec.stringify(Array(photoUrls))];
    }
  }
}
