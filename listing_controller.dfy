/** The listing controller of the marketplace back end: creating a listing
    (with its owner's back-reference), updating it, recording a view and
    listing a caller's own listings.

    The request-body normalisation (price, description, coordinates, the
    JSON-or-structured `photos` and `features` fields) and the construction of
    the update document are pure functions. The two collections the handlers
    write to, listings and users, are the fields of the class ListingStore,
    whose methods are the handlers. The geocoder, the date formatter, the
    clock, the expiry comparison and JSON are parameters (record Env). */
module ListingController {
  import opened Json

  type ListingId = nat
  type UserId = string

  /** Thirty days, in milliseconds: the lifetime of a new listing. */
  const ExpiryMillis: int := 30 * 24 * 60 * 60 * 1000

  datatype Point = Point(lng: real, lat: real)

  /** What the geocoding helper answers for a (city, state) pair. */
  datatype GeoReply = Located(coordinates: Point) | GeoError

  datatype Location = Location(city: string, state: string, neighbourhood: string, coordinates: Point)

  /** Snapshot of the owner taken when the listing is created. */
  datatype PostedBy = PostedBy(name: string, memberSince: string)

  datatype View = View(userId: UserId)

  datatype Listing = Listing(
    title: string,
    description: string,
    user: UserId,
    category: string,
    subcategory: string,
    brand: string,
    price: string,
    images: seq<string>,
    state: string,
    city: string,
    features: Option<Value>,
    location: Location,
    postedBy: PostedBy,
    isExpired: bool,
    expiryDate: string,
    views: seq<View>)

  datatype User = User(fullName: string, createdAt: int, productListed: seq<ListingId>)

  /** The authenticated caller, as the authentication middleware supplies it. */
  datatype Principal = Principal(id: UserId, fullName: string, createdAt: int)

  /** A body field that may be absent, JSON text, or an already structured value. */
  datatype Field = Absent | Text(text: string) | Structured(value: Value)

  /** A field after `typeof x === 'string' ? JSON.parse(x) : x`. */
  datatype Parse = Undefined | Parsed(value: Value) | Malformed

  /** The request body of create and update (the update's listingId apart).
      Falsy `description` and `price` are None or the empty string. */
  datatype Body = Body(
    title: string,
    description: Option<string>,
    brand: string,
    price: Option<string>,
    state: string,
    city: string,
    neighbourhood: string,
    features: Field,
    category: string,
    subCategory: string,
    photos: Field)

  /** The services the handlers call but that are not part of this model:
      JSON, getCoordinates, formatDate, the expiry comparison
      `expiryDate < Date.now()` (left uninterpreted) and Date.now itself. */
  datatype Env = Env(
    codec: Codec,
    geocode: (string, string) -> GeoReply,
    formatDate: int -> string,
    expiredBefore: (string, int) -> bool,
    now: int)

  /** Which of the create handler's persistence calls fail. */
  datatype Faults = Faults(saveFails: bool, pushFails: bool, refetchFails: bool)

  /** An intermediate result: a value, or an exception that the handler's
      catch turns into a 500 response. */
  datatype Result<+T> = Ok(value: T) | ServerFault

  // ---------------------------------------------------------------------
  // Normalisation of the request body

  /** `s.replace(/,/g, '')`. */
  function StripCommas(s: string): (r: string)
    ensures ',' !in r
    ensures |r| <= |s|
  {
    if s == [] then []
    else (if s[0] == ',' then [] else [s[0]]) + StripCommas(s[1..])
  }

  /** Removing commas distributes over concatenation: every other character
      is kept, in order. */
  lemma {:induction false} StripCommasAppend(a: string, b: string)
    ensures StripCommas(a + b) == StripCommas(a) + StripCommas(b)
  {
    if a != [] {
      var head := if a[0] == ',' then [] else [a[0]];
      assert (a + b)[0] == a[0];
      assert (a + b)[1..] == a[1..] + b;
      StripCommasAppend(a[1..], b);
      calc {
        StripCommas(a + b);
        head + StripCommas(a[1..] + b);
        head + (StripCommas(a[1..]) + StripCommas(b));
        (head + StripCommas(a[1..])) + StripCommas(b);
        StripCommas(a) + StripCommas(b);
      }
    } else {
      assert a + b == b;
    }
  }

  /** A string without commas is left as it is. */
  lemma {:induction false} StripCommasKeeps(s: string)
    requires ',' !in s
    ensures StripCommas(s) == s
  {
    if s != [] {
      StripCommasKeeps(s[1..]);
    }
  }

  /** Stripping twice is stripping once. */
  lemma StripCommasIdempotent(s: string)
    ensures StripCommas(StripCommas(s)) == StripCommas(s)
  {
    StripCommasKeeps(StripCommas(s));
  }

  lemma StripCommasExample()
    ensures StripCommas("12,000") == "12000"
    ensures StripCommas("1,999") == "1999"
  {
    assert "1,999"[1..] == ",999" && ",999"[1..] == "999";
    StripCommasKeeps("999");
    assert "12,000"[1..] == "2,000" && "2,000"[1..] == ",000" && ",000"[1..] == "000";
    StripCommasKeeps("000");
  }

  /** `price ? price.replace(/,/g, '') : ''`. */
  function NormalisePrice(price: Option<string>): (r: string)
    ensures ',' !in r
    ensures price.None? || price.value == [] ==> r == []
    ensures price.Some? && ',' !in price.value ==> r == price.value
    ensures price.Some? && price.value != [] ==> r == StripCommas(price.value)
  {
    if price.Some? && price.value != [] then
      var r := StripCommas(price.value);
      assert ',' !in price.value ==> r == price.value by {
        if ',' !in price.value { StripCommasKeeps(price.value); }
      }
      r
    else ""
  }

  /** The stored forms of the prices "12,000" and "1,999". */
  lemma NormalisePriceExample()
    ensures NormalisePrice(Some("12,000")) == "12000"
    ensures NormalisePrice(Some("1,999")) == "1999"
  {
    StripCommasExample();
  }

  /** `description || ''`. */
  function OrEmpty(d: Option<string>): (r: string)
    ensures d.Some? ==> r == d.value
    ensures d.None? ==> r == []
  {
    if d.Some? then d.value else ""
  }

  /** `coordinates.error ? [0, 0] : coordinates`. */
  function Coordinates(reply: GeoReply): (p: Point)
    ensures reply.GeoError? ==> p == Point(0.0, 0.0)
    ensures reply.Located? ==> p == reply.coordinates
  {
    match reply
    case GeoError => Point(0.0, 0.0)
    case Located(c) => c
  }

  /** The location object; getCoordinates is consulted on every call. */
  function Locate(env: Env, city: string, state: string, neighbourhood: string): (loc: Location)
    ensures loc.city == city && loc.state == state && loc.neighbourhood == neighbourhood
    ensures env.geocode(city, state).GeoError? ==> loc.coordinates == Point(0.0, 0.0)
    ensures env.geocode(city, state).Located? ==> loc.coordinates == env.geocode(city, state).coordinates
  {
    Location(city, state, neighbourhood, Coordinates(env.geocode(city, state)))
  }

  /** `typeof x === 'string' ? JSON.parse(x) : x`. */
  function Normalise(codec: Codec, f: Field): (r: Parse)
    ensures f.Absent? <==> r.Undefined?
    ensures r.Malformed? <==> f.Text? && codec.parse(f.text).None?
    ensures f.Structured? ==> r == Parsed(f.value)
    ensures f.Text? && codec.parse(f.text).Some? ==> r == Parsed(codec.parse(f.text).value)
  {
    match f
    case Absent => Undefined
    case Structured(v) => Parsed(v)
    case Text(s) =>
      match codec.parse(s)
      case None => Malformed
      case Some(v) => Parsed(v)
  }

  /** Sending a value as JSON text or as structured data is the same to the
      server. */
  lemma NormaliseTextAgrees(codec: Codec, v: Value)
    requires Lawful(codec)
    ensures Normalise(codec, Text(codec.stringify(v))) == Normalise(codec, Structured(v))
  {
    ParseStringified(codec, v);
  }

  /** What the listing's `images` path receives from `images: parsedImages`:
      an absent value takes the schema default (empty); an object cannot be
      cast to an array of strings, so the save is rejected (None). */
  function InitialImages(p: Parse): (r: Option<seq<string>>)
    ensures r.Some? <==> p.Undefined? || (p.Parsed? && p.value.Array?)
    ensures p.Undefined? ==> r == Some([])
    ensures p.Parsed? && p.value.Array? ==> r == Some(p.value.items)
  {
    match p
    case Undefined => Some([])
    case Parsed(Array(xs)) => Some(xs)
    case _ => None
  }

  /** `features: parsedFeatures`. */
  function StoredFeatures(p: Parse): (r: Option<Value>)
    requires !p.Malformed?
    ensures r.None? <==> p.Undefined?
    ensures p.Parsed? ==> r == Some(p.value)
  {
    if p.Parsed? then Some(p.value) else None
  }

  /** The record createListing saves, or the exception thrown before the
      save (malformed photos or features JSON, an uncastable images value). */
  function NewListing(env: Env, caller: Principal, body: Body): (r: Result<Listing>)
    ensures r.Ok? <==>
      InitialImages(Normalise(env.codec, body.photos)).Some? &&
      !Normalise(env.codec, body.features).Malformed?
    ensures r.Ok? ==>
      && r.value.user == caller.id
      && r.value.isExpired == false
      && r.value.views == []
      && r.value.description == OrEmpty(body.description)
      && r.value.price == NormalisePrice(body.price)
      && ',' !in r.value.price
      && r.value.features == StoredFeatures(Normalise(env.codec, body.features))
      && r.value.title == body.title && r.value.brand == body.brand
      && r.value.category == body.category && r.value.subcategory == body.subCategory
      && r.value.state == body.state && r.value.city == body.city
      && r.value.images == InitialImages(Normalise(env.codec, body.photos)).value
      && r.value.location == Locate(env, body.city, body.state, body.neighbourhood)
      && r.value.postedBy == PostedBy(caller.fullName, env.formatDate(caller.createdAt))
      && r.value.expiryDate == env.formatDate(env.now + ExpiryMillis)
  {
    var images := InitialImages(Normalise(env.codec, body.photos));
    var features := Normalise(env.codec, body.features);
    if images.None? || features.Malformed? then ServerFault
    else
      Ok(Listing(
        title := body.title,
        description := OrEmpty(body.description),
        user := caller.id,
        category := body.category,
        subcategory := body.subCategory,
        brand := body.brand,
        price := NormalisePrice(body.price),
        images := images.value,
        state := body.state,
        city := body.city,
        features := StoredFeatures(features),
        location := Locate(env, body.city, body.state, body.neighbourhood),
        postedBy := PostedBy(caller.fullName, env.formatDate(caller.createdAt)),
        isExpired := false,
        expiryDate := env.formatDate(env.now + ExpiryMillis),
        views := []))
  }

  /** The document handed to findByIdAndUpdate: the fields it sets and the
      images its `$push` appends (empty when there is no `$push`). */
  datatype UpdateDoc = UpdateDoc(
    title: string,
    description: string,
    category: string,
    subcategory: string,
    brand: string,
    price: string,
    state: string,
    city: string,
    features: Option<Value>,
    location: Location,
    isExpired: bool,
    pushImages: seq<string>)

  /** `Array.isArray(parsedImages) && parsedImages.length > 0`. */
  function ImagesToPush(p: Parse): (r: seq<string>)
    ensures p.Parsed? && p.value.Array? ==> r == p.value.items
    ensures !(p.Parsed? && p.value.Array?) ==> r == []
  {
    if p.Parsed? && p.value.Array? && |p.value.items| > 0 then p.value.items else []
  }

  /** The update document built from the body and the existing record, or
      the exception thrown while building it. */
  function BuildUpdate(env: Env, existing: Listing, body: Body): (r: Result<UpdateDoc>)
    ensures r.Ok? <==>
      !Normalise(env.codec, body.photos).Malformed? &&
      !Normalise(env.codec, body.features).Malformed?
    ensures r.Ok? ==>
      && r.value.price == NormalisePrice(body.price)
      && ',' !in r.value.price
      && r.value.description == OrEmpty(body.description)
      && r.value.features == StoredFeatures(Normalise(env.codec, body.features))
      && r.value.title == body.title && r.value.brand == body.brand
      && r.value.category == body.category && r.value.subcategory == body.subCategory
      && r.value.state == body.state && r.value.city == body.city
      && r.value.location == Locate(env, body.city, body.state, body.neighbourhood)
      && r.value.isExpired == env.expiredBefore(existing.expiryDate, env.now)
      && r.value.pushImages == ImagesToPush(Normalise(env.codec, body.photos))
  {
    var photos := Normalise(env.codec, body.photos);
    var features := Normalise(env.codec, body.features);
    if photos.Malformed? || features.Malformed? then ServerFault
    else
      Ok(UpdateDoc(
        title := body.title,
        description := OrEmpty(body.description),
        category := body.category,
        subcategory := body.subCategory,
        brand := body.brand,
        price := NormalisePrice(body.price),
        state := body.state,
        city := body.city,
        features := StoredFeatures(features),
        location := Locate(env, body.city, body.state, body.neighbourhood),
        isExpired := env.expiredBefore(existing.expiryDate, env.now),
        pushImages := ImagesToPush(photos)))
  }

  /** What findByIdAndUpdate does to a stored listing with that document. An
      undefined `features` is dropped from the update, as Mongoose drops
      undefined values. */
  function ApplyUpdate(l: Listing, u: UpdateDoc): (r: Listing)
    ensures r.user == l.user && r.views == l.views
    ensures r.postedBy == l.postedBy && r.expiryDate == l.expiryDate
    ensures r.images == l.images + u.pushImages
    ensures r.price == u.price && r.location == u.location && r.isExpired == u.isExpired
    ensures r.title == u.title && r.description == u.description && r.brand == u.brand
    ensures r.category == u.category && r.subcategory == u.subcategory
    ensures r.state == u.state && r.city == u.city
    ensures r.features == if u.features.Some? then u.features else l.features
  {
    l.(
      title := u.title,
      description := u.description,
      category := u.category,
      subcategory := u.subcategory,
      brand := u.brand,
      price := u.price,
      state := u.state,
      city := u.city,
      features := if u.features.Some? then u.features else l.features,
      location := u.location,
      isExpired := u.isExpired,
      images := l.images + u.pushImages)
  }

  /** Images on update are appended when the photos are a non-empty array and
      are otherwise left exactly as they were. */
  lemma UpdateImages(env: Env, l: Listing, body: Body)
    requires BuildUpdate(env, l, body).Ok?
    ensures var p := Normalise(env.codec, body.photos);
      var r := ApplyUpdate(l, BuildUpdate(env, l, body).value);
      if p.Parsed? && p.value.Array? then r.images == l.images + p.value.items
      else r.images == l.images
  {
  }

  /** `$push: { views: { userId } }`. */
  function AddView(l: Listing, viewer: UserId): (r: Listing)
    ensures r.views == l.views + [View(viewer)]
    ensures r.(views := l.views) == l
  {
    l.(views := l.views + [View(viewer)])
  }

  /** Views are not de-duplicated: two visits by the same viewer add two
      entries. */
  lemma ViewsAccumulate(l: Listing, viewer: UserId)
    ensures |AddView(AddView(l, viewer), viewer).views| == |l.views| + 2
    ensures AddView(AddView(l, viewer), viewer).views[|l.views|..] == [View(viewer), View(viewer)]
  {
  }

  /** `$push: { productListed: id }`. */
  function AddProduct(u: User, id: ListingId): (r: User)
    ensures r.productListed == u.productListed + [id]
    ensures r.(productListed := u.productListed) == u
  {
    u.(productListed := u.productListed + [id])
  }

  /** `ListModel.find({ user: userId })`, as a set of records. */
  function OwnedBy(listings: map<ListingId, Listing>, owner: UserId): (r: map<ListingId, Listing>)
    ensures forall id :: id in r <==> id in listings && listings[id].user == owner
    ensures forall id :: id in r ==> r[id] == listings[id]
  {
    map id | id in listings && listings[id].user == owner :: listings[id]
  }

  /** A new listing appears among its owner's listings and nobody else's. */
  lemma OwnedByAfterInsert(listings: map<ListingId, Listing>, id: ListingId, l: Listing, owner: UserId)
    requires id !in listings
    ensures OwnedBy(listings[id := l], owner) ==
      if l.user == owner then OwnedBy(listings, owner)[id := l] else OwnedBy(listings, owner)
  {
    var after := OwnedBy(listings[id := l], owner);
    var expected := if l.user == owner then OwnedBy(listings, owner)[id := l] else OwnedBy(listings, owner);
    assert after.Keys == expected.Keys;
    assert forall k :: k in after ==> after[k] == expected[k];
  }

  /** Updating or viewing a listing never moves it to another owner. */
  lemma OwnedByAfterReplace(listings: map<ListingId, Listing>, id: ListingId, l: Listing, owner: UserId)
    requires id in listings && l.user == listings[id].user
    ensures OwnedBy(listings[id := l], owner).Keys == OwnedBy(listings, owner).Keys
  {
  }

  // ---------------------------------------------------------------------
  // Responses

  datatype CreateResponse =
    | Created(id: ListingId, listing: Listing, userDetails: Option<User>)
    | CreateFault
  {
    function Code(): (c: nat)
      ensures c == 201 <==> Created?
      ensures c == 500 <==> CreateFault?
    {
      if Created? then 201 else 500
    }
  }

  datatype UpdateResponse = Updated(listing: Listing) | UpdateNotFound | UpdateFault
  {
    function Code(): (c: nat)
      ensures c == 200 <==> Updated?
      ensures c == 404 <==> UpdateNotFound?
      ensures c == 500 <==> UpdateFault?
    {
      match this
      case Updated(_) => 200
      case UpdateNotFound => 404
      case UpdateFault => 500
    }
  }

  // ---------------------------------------------------------------------
  // The collections the handlers write to

  class ListingStore {
    var listings: map<ListingId, Listing>
    var users: map<UserId, User>
    /** The id the next saved listing receives. */
    var nextId: ListingId

    ghost predicate Valid()
      reads this
    {
      forall id :: id in listings ==> id < nextId
    }

    constructor (accounts: map<UserId, User>)
      ensures Valid()
      ensures listings == map[] && users == accounts
    {
      listings := map[];
      users := accounts;
      nextId := 0;
    }

    /** createListing. The listing is saved first; the owner's
        `productListed` push is a second, independent write, so a failure
        after the save leaves the listing stored and answers 500. The
        response's userDetails is the owner as it was before the push
        (findByIdAndUpdate returns the old document), or null. */
    method CreateListing(env: Env, caller: Principal, body: Body, faults: Faults) returns (res: CreateResponse)
      requires Valid()
      modifies this
      ensures Valid()
      ensures res.Code() == 201 <==>
        NewListing(env, caller, body).Ok? && !faults.saveFails && !faults.pushFails && !faults.refetchFails
      ensures res.Code() != 201 ==> res.Code() == 500
      ensures NewListing(env, caller, body).ServerFault? || faults.saveFails ==>
        res == CreateFault && listings == old(listings) && users == old(users)
      ensures NewListing(env, caller, body).Ok? && !faults.saveFails ==>
        var l := NewListing(env, caller, body).value;
        var id := old(nextId);
        && id !in old(listings)
        && listings == old(listings)[id := l]
        && users == (if !faults.pushFails && caller.id in old(users)
                     then old(users)[caller.id := AddProduct(old(users)[caller.id], id)]
                     else old(users))
        && res == (if faults.pushFails || faults.refetchFails then CreateFault
                   else Created(id, l, if caller.id in old(users) then Some(old(users)[caller.id]) else None))
    {
      var draft := NewListing(env, caller, body);
      if draft.ServerFault? || faults.saveFails {
        return CreateFault;
      }
      var id := nextId;
      listings := listings[id := draft.value];
      nextId := nextId + 1;
      if faults.pushFails {
        return CreateFault;
      }
      var userDetails: Option<User> := None;
      if caller.id in users {
        userDetails := Some(users[caller.id]);
        users := users[caller.id := AddProduct(users[caller.id], id)];
      }
      if faults.refetchFails {
        return CreateFault;
      }
      res := Created(id, draft.value, userDetails);
    }

    /** updateViews: appends one view entry to an existing listing. */
    method UpdateViews(viewer: UserId, listingId: ListingId) returns (code: nat)
      requires Valid()
      modifies this
      ensures Valid()
      ensures users == old(users) && nextId == old(nextId)
      ensures listingId in old(listings) ==>
        code == 200 && listings == old(listings)[listingId := AddView(old(listings)[listingId], viewer)]
      ensures listingId !in old(listings) ==> code == 404 && listings == old(listings)
    {
      if listingId !in listings {
        return 404;
      }
      listings := listings[listingId := AddView(listings[listingId], viewer)];
      code := 200;
    }

    /** updateListing. A missing listingId answers 404. An id that names no
        listing makes `listing.expiryDate` throw, answering 500. */
    method UpdateListing(env: Env, body: Body, listingId: Option<ListingId>) returns (res: UpdateResponse)
      requires Valid()
      modifies this
      ensures Valid()
      ensures users == old(users) && nextId == old(nextId)
      ensures res.Code() == 404 <==> listingId.None?
      ensures res.Code() == 200 <==>
        listingId.Some? && listingId.value in old(listings) &&
        BuildUpdate(env, old(listings)[listingId.value], body).Ok?
      ensures res.Code() == 500 <==>
        listingId.Some? && (listingId.value in old(listings) ==>
          BuildUpdate(env, old(listings)[listingId.value], body).ServerFault?)
      ensures listingId.None? ==> res == UpdateNotFound && listings == old(listings)
      ensures listingId.Some? && listingId.value !in old(listings) ==>
        res == UpdateFault && listings == old(listings)
      ensures listingId.Some? && listingId.value in old(listings) ==>
        var before := old(listings)[listingId.value];
        match BuildUpdate(env, before, body)
        case ServerFault => res == UpdateFault && listings == old(listings)
        case Ok(doc) =>
          && listings == old(listings)[listingId.value := ApplyUpdate(before, doc)]
          && res == Updated(ApplyUpdate(before, doc))
    {
      if listingId.None? {
        return UpdateNotFound;
      }
      var id := listingId.value;
      if id !in listings {
        return UpdateFault;
      }
      var doc := BuildUpdate(env, listings[id], body);
      if doc.ServerFault? {
        return UpdateFault;
      }
      var updated := ApplyUpdate(listings[id], doc.value);
      listings := listings[id := updated];
      res := Updated(updated);
    }

    /** getUserListing: the caller's own listings; a caller without an id
        answers 404 (None). */
    function GetUserListing(userId: Option<UserId>): (r: Option<map<ListingId, Listing>>)
      reads this
      ensures r.Some? <==> userId.Some?
      ensures r.Some? ==> forall id :: id in r.value <==> id in listings && listings[id].user == userId.value
      ensures r.Some? ==> forall id :: id in r.value ==> r.value[id] == listings[id]
    {
      if userId.None? then None else Some(OwnedBy(listings, userId.value))
    }
  }
}
