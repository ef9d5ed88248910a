/**
 * The events screen: a paginated table of events and the create/edit modal
 * whose draft holds two ordered lists, the event's sessions and its seat
 * price tiers, which are edited row by row and assembled into one request.
 *
 * Outside the model: the form widget (what `form.validateFields()` settles
 * with is an input), the clock and dayjs conversions (parameters), and every
 * network call (its outcome is an input; the calls issued are returned in
 * order).
 */
module EventsPage {
  import opened Js
  import opened Paging

  // ----- The draft's rows -----

  /** A session row; `key` is the client-side identity of the row. */
  datatype Session = Session(key: string, date: string, startTime: string, endTime: string, place: string)

  /** A seat price tier row; `id` is the client-side identity of the row. */
  datatype Seat = Seat(id: int, areaName: string, price: int, quantity: int)

  datatype Place = Place(id: int, name: string)

  /** `placesData`. */
  const PlacesData := [Place(1, "台北小巨蛋"), Place(2, "台中國家歌劇院"), Place(3, "高雄衛武營國家藝術文化中心")]

  /** The place a new session starts with. */
  const DefaultPlace := "台北小巨蛋"

  /** `seatsData['台北小巨蛋']`: the six preset tiers. */
  const PresetSeats := [
    Seat(1, "特A區", 3600, 50), Seat(2, "特B區", 3200, 50),
    Seat(3, "紅1區", 2800, 100), Seat(4, "紅2區", 2400, 100),
    Seat(5, "綠1區", 2000, 200), Seat(6, "綠2區", 1600, 200)
  ]

  /** The upload folders for the two image slots. */
  const IntroFolder := "event-intro"
  const BannerFolder := "event-banner"

  /** What a session cell reports: the date, the time range (both ends at once) or the place. */
  datatype SessionEdit = SetDate(date: string) | SetTimeRange(startTime: string, endTime: string) | SetPlace(place: string)

  /** What a seat cell reports: one of its three fields. */
  datatype SeatEdit = SetAreaName(areaName: string) | SetPrice(price: int) | SetQuantity(quantity: int)

  /** `{ ...session, startTime, endTime }` for the time range, `{ ...session, [field]: value }` otherwise. */
  function EditSession(s: Session, e: SessionEdit): (r: Session)
    ensures r.key == s.key
    ensures r.date == (if e.SetDate? then e.date else s.date)
    ensures r.startTime == (if e.SetTimeRange? then e.startTime else s.startTime)
    ensures r.endTime == (if e.SetTimeRange? then e.endTime else s.endTime)
    ensures r.place == (if e.SetPlace? then e.place else s.place)
  {
    match e
    case SetDate(d) => s.(date := d)
    case SetTimeRange(st, en) => s.(startTime := st, endTime := en)
    case SetPlace(p) => s.(place := p)
  }

  /** `{ ...seat, [field]: value }`. */
  function EditSeat(s: Seat, e: SeatEdit): (r: Seat)
    ensures r.id == s.id
    ensures r.areaName == (if e.SetAreaName? then e.areaName else s.areaName)
    ensures r.price == (if e.SetPrice? then e.price else s.price)
    ensures r.quantity == (if e.SetQuantity? then e.quantity else s.quantity)
  {
    match e
    case SetAreaName(a) => s.(areaName := a)
    case SetPrice(p) => s.(price := p)
    case SetQuantity(q) => s.(quantity := q)
  }

  /**
   * `list.filter((_, idx) => idx !== index)`: exactly the element at `index`
   * goes, the rest keep their order; an index outside the list removes nothing.
   */
  function Without<T>(s: seq<T>, index: int): (r: seq<T>)
    ensures 0 <= index < |s| ==> r == s[..index] + s[index + 1..]
    ensures !(0 <= index < |s|) ==> r == s
  {
    if s == [] then []
    else if index == 0 then Without(s[1..], index - 1)
    else [s[0]] + Without(s[1..], index - 1)
  }

  /** After removing row `index`, row `i` is the old row `i` before it and the old row `i + 1` from it on. */
  lemma WithoutShifts<T>(s: seq<T>, index: nat, i: nat)
    requires index < |s| && i < |s| - 1
    ensures |Without(s, index)| == |s| - 1
    ensures Without(s, index)[i] == if i < index then s[i] else s[i + 1]
  {
  }

  // ----- Hydration from a fetched event -----

  /** A session as `event/{id}` returns it. */
  datatype DetailSession = DetailSession(sessionId: string, startDate: int, startTime: string, endTime: string,
                                         place: string, prices: seq<PriceEntry>)

  /** The image fields of the fetched event. */
  datatype DetailEvent = DetailEvent(introImage: Option<string>, bannerImage: Option<string>)

  /** `eventDetails.data`: the event and its (possibly missing) sessions. */
  datatype EventDetails = EventDetails(event: DetailEvent, sessions: Option<seq<DetailSession>>)

  /** `eventDetails.data.sessions || []`. */
  function DetailSessions(d: EventDetails): seq<DetailSession> {
    if d.sessions.Some? then d.sessions.value else []
  }

  /** Sessions rehydrated from the fetched sessions: `key = sessionId`, the date formatted by `formatDay`. */
  function HydratedSessions(data: seq<DetailSession>, formatDay: int -> string): (r: seq<Session>)
    ensures |r| == |data|
    ensures forall i :: 0 <= i < |data| ==>
      r[i] == Session(data[i].sessionId, formatDay(data[i].startDate), data[i].startTime, data[i].endTime, data[i].place)
  {
    if data == [] then []
    else [Session(data[0].sessionId, formatDay(data[0].startDate), data[0].startTime, data[0].endTime, data[0].place)]
         + HydratedSessions(data[1..], formatDay)
  }

  /**
   * Seats rehydrated from the first session's prices, `id` its position and
   * `quantity` 0; no sessions, no seats.
   */
  function HydratedSeats(data: seq<DetailSession>): (r: seq<Seat>)
    ensures data == [] ==> r == []
    ensures data != [] ==> |r| == |data[0].prices|
    ensures data != [] ==> forall i :: 0 <= i < |r| ==> r[i] == Seat(i, data[0].prices[i].area, data[0].prices[i].price, 0)
  {
    if data == [] then []
    else var prices := data[0].prices;
      seq(|prices|, i requires 0 <= i < |prices| => Seat(i, prices[i].area, prices[i].price, 0))
  }

  // ----- The request body -----

  /** What `form.validateFields()` resolves with. */
  datatype FormValues = FormValues(eventName: string, eventIntro: string, eventContent: string,
                                   introImage: Option<string>, bannerImage: Option<string>, organizer: string,
                                   saleStart: int, saleEnd: int, payments: seq<string>, tags: seq<string>)

  datatype SaleWindow = SaleWindow(startDate: int, endDate: int)
  datatype TimeRange = TimeRange(startTime: int, endTime: int)
  datatype SessionPayload = SessionPayload(date: int, timeRange: TimeRange, place: string)
  datatype PriceEntry = PriceEntry(area: string, price: int)

  datatype Payload = Payload(name: string, intro: string, content: string,
                             introImage: Option<string>, bannerImage: Option<string>, organizer: string,
                             eventRange: SaleWindow, releaseDate: int, payments: seq<string>, tags: seq<string>,
                             sessions: seq<SessionPayload>, prices: seq<PriceEntry>)

  /** `sessions.map(...)`: each row's date and times as timestamps, its place; the row key is dropped. */
  function SessionsPayload(sessions: seq<Session>, dayMillis: string -> int, timeMillis: string -> int): (r: seq<SessionPayload>)
    ensures |r| == |sessions|
    ensures forall i :: 0 <= i < |sessions| ==>
      r[i] == SessionPayload(dayMillis(sessions[i].date),
                             TimeRange(timeMillis(sessions[i].startTime), timeMillis(sessions[i].endTime)),
                             sessions[i].place)
  {
    if sessions == [] then []
    else [SessionPayload(dayMillis(sessions[0].date),
                         TimeRange(timeMillis(sessions[0].startTime), timeMillis(sessions[0].endTime)),
                         sessions[0].place)]
         + SessionsPayload(sessions[1..], dayMillis, timeMillis)
  }

  /** `seats.map(seat => ({ area: seat.areaName, price: seat.price }))`: same length and order, no quantity. */
  function Prices(seats: seq<Seat>): (r: seq<PriceEntry>)
    ensures |r| == |seats|
    ensures forall i :: 0 <= i < |seats| ==> r[i] == PriceEntry(seats[i].areaName, seats[i].price)
  {
    if seats == [] then [] else [PriceEntry(seats[0].areaName, seats[0].price)] + Prices(seats[1..])
  }

  /** The payload before any upload: images are `values.x || xImageUrl`, released `now`. */
  function BuildPayload(values: FormValues, sessions: seq<Session>, seats: seq<Seat>,
                        introUrl: Option<string>, bannerUrl: Option<string>,
                        now: int, dayMillis: string -> int, timeMillis: string -> int): (r: Payload)
    ensures r.introImage == Or(values.introImage, introUrl) && r.bannerImage == Or(values.bannerImage, bannerUrl)
    ensures r.releaseDate == now && r.eventRange == SaleWindow(values.saleStart, values.saleEnd)
    ensures r.name == values.eventName && r.intro == values.eventIntro && r.content == values.eventContent
    ensures r.organizer == values.organizer && r.payments == values.payments && r.tags == values.tags
    ensures r.sessions == SessionsPayload(sessions, dayMillis, timeMillis) && r.prices == Prices(seats)
  {
    Payload(values.eventName, values.eventIntro, values.eventContent,
            Or(values.introImage, introUrl), Or(values.bannerImage, bannerUrl), values.organizer,
            SaleWindow(values.saleStart, values.saleEnd), now, values.payments, values.tags,
            SessionsPayload(sessions, dayMillis, timeMillis), Prices(seats))
  }

  /**
   * What a resolved `form.validateFields()` guarantees: every field with a
   * `required` rule holds a value (a non-empty string, a non-empty list).
   */
  predicate SatisfiesRules(v: FormValues) {
    && v.eventName != "" && v.eventIntro != "" && v.eventContent != ""
    && Truthy(v.introImage) && Truthy(v.bannerImage)
    && v.organizer != "" && v.payments != [] && v.tags != []
  }

  /**
   * Under the form's rules both image fields are truthy, so the `|| xImageUrl`
   * fallback never takes effect: the body carries the form's image values.
   */
  lemma FormImagesWin(values: FormValues, sessions: seq<Session>, seats: seq<Seat>,
                      introUrl: Option<string>, bannerUrl: Option<string>,
                      now: int, dayMillis: string -> int, timeMillis: string -> int)
    requires SatisfiesRules(values)
    ensures var p := BuildPayload(values, sessions, seats, introUrl, bannerUrl, now, dayMillis, timeMillis);
      p.introImage == values.introImage && p.bannerImage == values.bannerImage
  {
  }

  /** Seat quantities never reach the request: drafts that differ only in quantities submit the same body. */
  lemma {:induction false} QuantityNotSent(seats1: seq<Seat>, seats2: seq<Seat>)
    requires |seats1| == |seats2|
    requires forall i :: 0 <= i < |seats1| ==>
      seats1[i].areaName == seats2[i].areaName && seats1[i].price == seats2[i].price
    ensures Prices(seats1) == Prices(seats2)
  {
    if seats1 != [] {
      QuantityNotSent(seats1[1..], seats2[1..]);
    }
  }

  /** Session row keys never reach the request. */
  lemma {:induction false} SessionKeysNotSent(s1: seq<Session>, s2: seq<Session>, dayMillis: string -> int, timeMillis: string -> int)
    requires |s1| == |s2|
    requires forall i :: 0 <= i < |s1| ==> s1[i].(key := s2[i].key) == s2[i]
    ensures SessionsPayload(s1, dayMillis, timeMillis) == SessionsPayload(s2, dayMillis, timeMillis)
  {
    if s1 != [] {
      assert s1[0].(key := s2[0].key) == s2[0];
      SessionKeysNotSent(s1[1..], s2[1..], dayMillis, timeMillis);
    }
  }

  /** Editing a fetched event without touching its tiers sends back the first session's prices unchanged. */
  lemma HydratedPricesRoundTrip(data: seq<DetailSession>)
    ensures Prices(HydratedSeats(data)) == if data == [] then [] else data[0].prices
  {
    if data != [] {
      var r := Prices(HydratedSeats(data));
      assert |r| == |data[0].prices|;
      forall i | 0 <= i < |r|
        ensures r[i] == data[0].prices[i]
      {
      }
    }
  }

  // ----- Uploads and the calls the screen issues -----

  /** A file picked in an upload widget. */
  datatype LocalFile = LocalFile(handle: nat)

  datatype FileStatus = Uploading | Done | Failed | Removed

  /** An entry of an upload widget's file list; `responseUrl` is `file.response?.url`. */
  datatype UploadFile = UploadFile(uid: string, name: string, status: FileStatus, url: Option<string>,
                                   originFileObj: Option<LocalFile>, responseUrl: Option<string>)

  /** `list.length > 0 ? list[0].originFileObj : undefined`: the file the create path would upload. */
  function PendingFile(files: seq<UploadFile>): (r: Option<LocalFile>)
    ensures r.Some? <==> |files| > 0 && files[0].originFileObj.Some?
    ensures r.Some? ==> r == files[0].originFileObj
  {
    if |files| > 0 then files[0].originFileObj else None
  }

  /**
   * The entry the hydration effect shows for an already stored image: done,
   * pointing at the stored URL, with no local file, so it is never uploaded.
   */
  function StoredImageEntry(name: string, url: string): (r: UploadFile)
    ensures r.status == Done && r.url == Some(url) && r.name == name
    ensures PendingFile([r]).None?
  {
    UploadFile("-1", name, Done, Some(url), None, None)
  }

  datatype EventCall = UploadImage(folder: string, file: LocalFile) | CreateEvent(payload: Payload)
                     | UpdateEvent(id: string, payload: Payload) | DeleteEvents(ids: seq<string>) | Refetch

  /** Every upload comes before every create or update. */
  predicate UploadsPrecedeWrites(calls: seq<EventCall>) {
    forall i, j ::
      (0 <= i < |calls| && 0 <= j < |calls| && calls[i].UploadImage? && (calls[j].CreateEvent? || calls[j].UpdateEvent?))
      ==> i < j
  }

  /** Uploads followed by calls that upload nothing keep every upload before every write. */
  lemma UploadsThenWrites(uploads: seq<EventCall>, rest: seq<EventCall>)
    requires forall k :: 0 <= k < |uploads| ==> uploads[k].UploadImage?
    requires forall k :: 0 <= k < |rest| ==> !rest[k].UploadImage?
    ensures UploadsPrecedeWrites(uploads + rest)
  {
  }

  /**
   * The create path: upload the pending intro file, then the pending banner
   * file, each resolved upload replacing that image field; the first rejected
   * upload ends the path. Then create, and refetch when the create resolves.
   */
  function CreateCalls(base: Payload, intro: Option<LocalFile>, introUpload: Outcome<string>,
                       banner: Option<LocalFile>, bannerUpload: Outcome<string>, writeResolves: bool): (r: seq<EventCall>)
    ensures 1 <= |r| <= 4
    ensures r[0].UploadImage? <==> intro.Some? || banner.Some?
    ensures r[0].CreateEvent? <==> intro.None? && banner.None?
  {
    var introCalls := if intro.Some? then [UploadImage(IntroFolder, intro.value)] else [];
    if intro.Some? && introUpload.Rejected? then introCalls
    else
      var afterIntro := if intro.Some? then base.(introImage := Some(introUpload.value)) else base;
      var bannerCalls := if banner.Some? then [UploadImage(BannerFolder, banner.value)] else [];
      if banner.Some? && bannerUpload.Rejected? then introCalls + bannerCalls
      else
        var payload := if banner.Some? then afterIntro.(bannerImage := Some(bannerUpload.value)) else afterIntro;
        introCalls + bannerCalls + [CreateEvent(payload)] + (if writeResolves then [Refetch] else [])
  }

  /** Proof helper: `CreateCalls` unfolded into its three outcomes, for the lemmas below. */
  lemma CreateCallsShape(base: Payload, intro: Option<LocalFile>, introUpload: Outcome<string>,
                         banner: Option<LocalFile>, bannerUpload: Outcome<string>, writeResolves: bool)
    ensures var r := CreateCalls(base, intro, introUpload, banner, bannerUpload, writeResolves);
      var introCalls := if intro.Some? then [UploadImage(IntroFolder, intro.value)] else [];
      var bannerCalls := if banner.Some? then [UploadImage(BannerFolder, banner.value)] else [];
      if intro.Some? && introUpload.Rejected? then r == introCalls
      else if banner.Some? && bannerUpload.Rejected? then r == introCalls + bannerCalls
      else
        var afterIntro := if intro.Some? then base.(introImage := Some(introUpload.value)) else base;
        var payload := if banner.Some? then afterIntro.(bannerImage := Some(bannerUpload.value)) else afterIntro;
        r == (introCalls + bannerCalls) + ([CreateEvent(payload)] + (if writeResolves then [Refetch] else []))
  {
  }

  /** On create, every upload precedes the write, and the intro upload leads when there is one. */
  lemma CreateCallsOrder(base: Payload, intro: Option<LocalFile>, introUpload: Outcome<string>,
                         banner: Option<LocalFile>, bannerUpload: Outcome<string>, writeResolves: bool)
    ensures var r := CreateCalls(base, intro, introUpload, banner, bannerUpload, writeResolves);
      && UploadsPrecedeWrites(r)
      && (intro.Some? ==> r[0] == UploadImage(IntroFolder, intro.value))
  {
    CreateCallsShape(base, intro, introUpload, banner, bannerUpload, writeResolves);
    var introCalls := if intro.Some? then [UploadImage(IntroFolder, intro.value)] else [];
    var bannerCalls := if banner.Some? then [UploadImage(BannerFolder, banner.value)] else [];
    if intro.Some? && introUpload.Rejected? {
      UploadsThenWrites(introCalls, []);
      assert introCalls + [] == introCalls;
    } else if banner.Some? && bannerUpload.Rejected? {
      UploadsThenWrites(introCalls + bannerCalls, []);
      assert introCalls + bannerCalls + [] == introCalls + bannerCalls;
    } else {
      var afterIntro := if intro.Some? then base.(introImage := Some(introUpload.value)) else base;
      var payload := if banner.Some? then afterIntro.(bannerImage := Some(bannerUpload.value)) else afterIntro;
      UploadsThenWrites(introCalls + bannerCalls, [CreateEvent(payload)] + (if writeResolves then [Refetch] else []));
    }
  }

  /**
   * The create is sent exactly when no upload was rejected, and it carries
   * the uploaded URLs over an otherwise unchanged body.
   */
  lemma CreateCallsSendsCreate(base: Payload, intro: Option<LocalFile>, introUpload: Outcome<string>,
                               banner: Option<LocalFile>, bannerUpload: Outcome<string>, writeResolves: bool)
    ensures var r := CreateCalls(base, intro, introUpload, banner, bannerUpload, writeResolves);
      && ((exists k :: 0 <= k < |r| && r[k].CreateEvent?) <==>
          !(intro.Some? && introUpload.Rejected?) && !(banner.Some? && bannerUpload.Rejected?))
      && (forall k :: 0 <= k < |r| && r[k].CreateEvent? ==>
          && r[k].payload.introImage == (if intro.Some? then Some(introUpload.value) else base.introImage)
          && r[k].payload.bannerImage == (if banner.Some? then Some(bannerUpload.value) else base.bannerImage)
          && r[k].payload.(introImage := base.introImage, bannerImage := base.bannerImage) == base)
  {
    CreateCallsShape(base, intro, introUpload, banner, bannerUpload, writeResolves);
    var r := CreateCalls(base, intro, introUpload, banner, bannerUpload, writeResolves);
    var n := (if intro.Some? then 1 else 0) + (if banner.Some? then 1 else 0);
    if !(intro.Some? && introUpload.Rejected?) && !(banner.Some? && bannerUpload.Rejected?) {
      assert r[n].CreateEvent?;
    }
  }

  /** The create path ends in a refetch exactly when no upload was rejected and the create resolved. */
  lemma CreateCallsRefetches(base: Payload, intro: Option<LocalFile>, introUpload: Outcome<string>,
                             banner: Option<LocalFile>, bannerUpload: Outcome<string>, writeResolves: bool)
    ensures var r := CreateCalls(base, intro, introUpload, banner, bannerUpload, writeResolves);
      r[|r| - 1] == Refetch <==>
        !(intro.Some? && introUpload.Rejected?) && !(banner.Some? && bannerUpload.Rejected?) && writeResolves
  {
    CreateCallsShape(base, intro, introUpload, banner, bannerUpload, writeResolves);
  }

  /**
   * The awaited steps of the create path, in order; `closes` says whether the
   * create resolved, which is when the modal closes.
   */
  method SubmitCreate(base: Payload, intro: Option<LocalFile>, introUpload: Outcome<string>,
                      banner: Option<LocalFile>, bannerUpload: Outcome<string>, writeResolves: bool)
      returns (calls: seq<EventCall>, closes: bool)
    ensures calls == CreateCalls(base, intro, introUpload, banner, bannerUpload, writeResolves)
    ensures closes <==> !(intro.Some? && introUpload.Rejected?) && !(banner.Some? && bannerUpload.Rejected?) && writeResolves
  {
    calls, closes := [], false;
    var payload := base;
    if intro.Some? {
      calls := calls + [UploadImage(IntroFolder, intro.value)];
      if introUpload.Rejected? {
        return;
      }
      payload := payload.(introImage := Some(introUpload.value));
    }
    if banner.Some? {
      calls := calls + [UploadImage(BannerFolder, banner.value)];
      if bannerUpload.Rejected? {
        return;
      }
      payload := payload.(bannerImage := Some(bannerUpload.value));
    }
    calls := calls + [CreateEvent(payload)];
    if writeResolves {
      closes := true;
      calls := calls + [Refetch];
    }
  }

  /** The summary fields a table row shows; the row doubles as `currentEvent`. */
  datatype EventSummary = EventSummary(eventName: string, tags: seq<string>, releaseDate: int)

  type EventRow = Row<EventSummary>

  class EventsScreen {
    var isModalOpen: bool
    var isDeleteModalOpen: bool
    var isEdit: bool
    var currentEvent: Option<EventRow>
    var currentEventId: Option<string>
    var currentPage: int
    var paginatedData: seq<EventRow>
    var introFiles: seq<UploadFile>
    var bannerFiles: seq<UploadFile>
    var introImageUrl: Option<string>
    var bannerImageUrl: Option<string>
    var sessions: seq<Session>
    var places: seq<Place>
    var seats: seq<Seat>

    /** Every piece of state at its `useState` initial value. */
    constructor ()
      ensures !isModalOpen && !isDeleteModalOpen && !isEdit && currentEvent == None && currentEventId == None
      ensures currentPage == 1 && paginatedData == []
      ensures introFiles == [] && bannerFiles == [] && introImageUrl == None && bannerImageUrl == None
      ensures sessions == [] && places == [] && seats == []
    {
      isModalOpen, isDeleteModalOpen, isEdit := false, false, false;
      currentEvent, currentEventId := None, None;
      currentPage, paginatedData := 1, [];
      introFiles, bannerFiles, introImageUrl, bannerImageUrl := [], [], None, None;
      sessions, places, seats := [], [], [];
    }

    /** The two mount effects: the place list and the preset tiers. */
    method LoadPresets()
      modifies this`places, this`seats
      ensures places == PlacesData && seats == PresetSeats
    {
      places := PlacesData;
      seats := PresetSeats;
    }

    /** The pagination effect: recompute the page once the list has loaded. */
    method RefreshPage(data: Option<seq<Doc<EventSummary>>>)
      modifies this`paginatedData
      ensures paginatedData == if data.Some? then Page(data.value, currentPage, PageSize) else old(paginatedData)
    {
      if data.Some? {
        paginatedData := Page(data.value, currentPage, PageSize);
      }
    }

    method TableChange(page: int)
      modifies this`currentPage
      ensures currentPage == page
    {
      currentPage := page;
    }

    /**
     * Open the modal. Edit mode remembers the event and its id and clears the
     * image state, keeping the lists until the details arrive; create mode
     * also clears the sessions and restores the six preset tiers.
     */
    method ShowModal(event: Option<EventRow>)
      modifies this`currentEvent, this`currentEventId, this`isEdit, this`introFiles, this`bannerFiles,
               this`introImageUrl, this`bannerImageUrl, this`sessions, this`seats, this`isModalOpen
      ensures currentEvent == event && isEdit == event.Some? && isModalOpen
      ensures currentEventId == (if event.Some? then Some(event.value.key) else None)
      ensures introFiles == [] && bannerFiles == [] && introImageUrl == None && bannerImageUrl == None
      ensures event.Some? ==> sessions == old(sessions) && seats == old(seats)
      ensures event.None? ==> sessions == [] && seats == PresetSeats
    {
      if event.Some? {
        currentEvent := event;
        currentEventId := Some(event.value.key);
        isEdit := true;
        introFiles, bannerFiles := [], [];
        introImageUrl, bannerImageUrl := None, None;
      } else {
        currentEvent := None;
        currentEventId := None;
        isEdit := false;
        introFiles, bannerFiles := [], [];
        introImageUrl, bannerImageUrl := None, None;
        sessions := [];
        seats := PresetSeats;
      }
      isModalOpen := true;
    }

    method ShowDeleteModal(event: EventRow)
      modifies this`currentEvent, this`isDeleteModalOpen
      ensures currentEvent == Some(event) && isDeleteModalOpen
    {
      currentEvent := Some(event);
      isDeleteModalOpen := true;
    }

    /**
     * The hydration effect, once the details have loaded without error: a
     * stored image becomes a done file entry and the current URL; the lists
     * are replaced by the fetched sessions and the first session's prices.
     */
    method HydrateFromDetails(details: EventDetails, formatDay: int -> string)
      modifies this`introFiles, this`bannerFiles, this`introImageUrl, this`bannerImageUrl, this`sessions, this`seats
      ensures sessions == HydratedSessions(DetailSessions(details), formatDay)
      ensures seats == HydratedSeats(DetailSessions(details))
      ensures Truthy(details.event.introImage) ==>
        introFiles == [StoredImageEntry("introImage", details.event.introImage.value)] && introImageUrl == details.event.introImage
      ensures !Truthy(details.event.introImage) ==> introFiles == old(introFiles) && introImageUrl == old(introImageUrl)
      ensures Truthy(details.event.bannerImage) ==>
        bannerFiles == [StoredImageEntry("bannerImage", details.event.bannerImage.value)] && bannerImageUrl == details.event.bannerImage
      ensures !Truthy(details.event.bannerImage) ==> bannerFiles == old(bannerFiles) && bannerImageUrl == old(bannerImageUrl)
    {
      var data := DetailSessions(details);
      if Truthy(details.event.introImage) {
        introFiles := [StoredImageEntry("introImage", details.event.introImage.value)];
        introImageUrl := details.event.introImage;
      }
      if Truthy(details.event.bannerImage) {
        bannerFiles := [StoredImageEntry("bannerImage", details.event.bannerImage.value)];
        bannerImageUrl := details.event.bannerImage;
      }
      sessions := HydratedSessions(data, formatDay);
      seats := HydratedSeats(data);
    }

    /**
     * The intro widget's `onChange`: keep the list; a done first file sets the
     * URL to its `url`, else to `objectUrl` (the blob URL of its local file)
     * when it has one; anything else clears the URL.
     */
    method IntroImageChange(fileList: seq<UploadFile>, objectUrl: string)
      modifies this`introFiles, this`introImageUrl
      ensures introFiles == fileList
      ensures introImageUrl ==
        if |fileList| > 0 && fileList[0].status == Done
        then Or(fileList[0].url, if fileList[0].originFileObj.Some? then Some(objectUrl) else None)
        else None
    {
      introFiles := fileList;
      if |fileList| > 0 && fileList[0].status == Done {
        var file := fileList[0];
        introImageUrl := Or(file.url, if file.originFileObj.Some? then Some(objectUrl) else None);
      } else {
        introImageUrl := None;
      }
    }

    /** The banner widget's `onChange`: keep the list; a done file sets the URL to its response's `url`. */
    method BannerImageChange(file: UploadFile, fileList: seq<UploadFile>)
      modifies this`bannerFiles, this`bannerImageUrl
      ensures bannerFiles == fileList
      ensures bannerImageUrl == if file.status == Done then file.responseUrl else old(bannerImageUrl)
    {
      bannerFiles := fileList;
      if file.status == Done {
        bannerImageUrl := file.responseUrl;
      }
    }

    /**
     * The widgets' `onRemove`: empty the list. The preview URL is not touched
     * here; the list's delete control is an icon-only button, so the click
     * listener (`IconButtonClicked`) clears it. The widget then reports the
     * emptied list through `onChange`: for the intro slot that is
     * `IntroImageChange([])`, which clears the URL as well; for the banner
     * slot `BannerImageChange` keeps it, so only the listener clears it.
     */
    method RemoveIntroImage()
      modifies this`introFiles
      ensures introFiles == []
    {
      introFiles := [];
    }

    /**
     * The document click listener: a click inside any icon-only button (the
     * row copy and delete buttons among them) clears both image URLs, and
     * nothing else.
     */
    method IconButtonClicked()
      modifies this`introImageUrl, this`bannerImageUrl
      ensures introImageUrl == None && bannerImageUrl == None
    {
      introImageUrl, bannerImageUrl := None, None;
    }

    method RemoveBannerImage()
      modifies this`bannerFiles
      ensures bannerFiles == []
    {
      bannerFiles := [];
    }

    // ----- Editing the session list -----

    /** Append a blank session with the given key at the default place. */
    method AddSession(freshKey: string)
      modifies this`sessions
      ensures sessions == old(sessions) + [Session(freshKey, "", "", "", DefaultPlace)]
    {
      sessions := sessions + [Session(freshKey, "", "", "", DefaultPlace)];
    }

    /** Copy row `index` with a new key and push the copy at the END of the list. */
    method DuplicateSession(index: nat, freshKey: string)
      requires index < |sessions|
      modifies this`sessions
      ensures sessions == old(sessions) + [old(sessions)[index].(key := freshKey)]
    {
      var newSessions := sessions;
      var copy := newSessions[index].(key := freshKey);
      newSessions := newSessions + [copy];
      sessions := newSessions;
    }

    method DeleteSession(index: int)
      modifies this`sessions
      ensures sessions == Without(old(sessions), index)
    {
      sessions := Without(sessions, index);
    }

    /** Replace row `index` by its edited copy; every other row stays. */
    method SessionChange(index: nat, edit: SessionEdit)
      requires index < |sessions|
      modifies this`sessions
      ensures sessions == old(sessions)[index := EditSession(old(sessions)[index], edit)]
    {
      var newSessions := sessions;
      newSessions := newSessions[index := EditSession(newSessions[index], edit)];
      sessions := newSessions;
    }

    // ----- Editing the seat list -----

    /** Append an empty tier with the given id. */
    method AddSeat(freshId: int)
      modifies this`seats
      ensures seats == old(seats) + [Seat(freshId, "", 0, 0)]
    {
      seats := seats + [Seat(freshId, "", 0, 0)];
    }

    /** Copy tier `index` with a new id and push the copy at the END of the list. */
    method DuplicateSeat(index: nat, freshId: int)
      requires index < |seats|
      modifies this`seats
      ensures seats == old(seats) + [old(seats)[index].(id := freshId)]
    {
      var newSeats := seats;
      var copy := newSeats[index].(id := freshId);
      newSeats := newSeats + [copy];
      seats := newSeats;
    }

    method DeleteSeat(index: int)
      modifies this`seats
      ensures seats == Without(old(seats), index)
    {
      seats := Without(seats, index);
    }

    method SeatChange(index: nat, edit: SeatEdit)
      requires index < |seats|
      modifies this`seats
      ensures seats == old(seats)[index := EditSeat(old(seats)[index], edit)]
    {
      var newSeats := seats;
      newSeats := newSeats[index := EditSeat(newSeats[index], edit)];
      seats := newSeats;
    }

    // ----- Submitting -----

    /**
     * Submit the modal. After validation the payload is built from the form
     * values and the two lists. Editing a current event sends one update.
     * Creating first uploads each slot's pending local file (intro, then
     * banner), overwriting that image field with the returned URL, and then
     * sends the create. The first rejected call ends the submission with the
     * modal left as it was; a write that resolves closes it and refetches.
     */
    method HandleOk(validated: Outcome<FormValues>, now: int, dayMillis: string -> int, timeMillis: string -> int,
                    introUpload: Outcome<string>, bannerUpload: Outcome<string>, writeResolves: bool)
        returns (calls: seq<EventCall>)
      requires validated.Resolved? ==> SatisfiesRules(validated.value)
      modifies this`isModalOpen
      ensures UploadsPrecedeWrites(calls)
      ensures validated.Rejected? ==> calls == [] && isModalOpen == old(isModalOpen)
      ensures validated.Resolved? ==>
        var base := BuildPayload(validated.value, sessions, seats, introImageUrl, bannerImageUrl, now, dayMillis, timeMillis);
        calls == if isEdit && currentEvent.Some?
                 then [UpdateEvent(currentEvent.value.key, base)] + (if writeResolves then [Refetch] else [])
                 else CreateCalls(base, PendingFile(introFiles), introUpload, PendingFile(bannerFiles), bannerUpload, writeResolves)
      ensures validated.Resolved? && isEdit && currentEvent.Some? ==>
        isModalOpen == if writeResolves then false else old(isModalOpen)
      ensures validated.Resolved? && !(isEdit && currentEvent.Some?) ==>
        var uploadsResolve := !(PendingFile(introFiles).Some? && introUpload.Rejected?) &&
                              !(PendingFile(bannerFiles).Some? && bannerUpload.Rejected?);
        isModalOpen == if uploadsResolve && writeResolves then false else old(isModalOpen)
    {
      calls := [];
      if validated.Rejected? {
        return;
      }
      var values := validated.value;
      var payload := BuildPayload(values, sessions, seats, introImageUrl, bannerImageUrl, now, dayMillis, timeMillis);
      if isEdit && currentEvent.Some? {
        calls := [UpdateEvent(currentEvent.value.key, payload)];
        if writeResolves {
          isModalOpen := false;
          calls := calls + [Refetch];
        }
        return;
      }
      var closes;
      CreateCallsOrder(payload, PendingFile(introFiles), introUpload, PendingFile(bannerFiles), bannerUpload, writeResolves);
      calls, closes := SubmitCreate(payload, PendingFile(introFiles), introUpload, PendingFile(bannerFiles), bannerUpload,
                                    writeResolves);
      if closes {
        isModalOpen := false;
      }
    }

    /**
     * Confirm the deletion: nothing without a current event; otherwise delete
     * its key, close this modal only and refetch (`deleteEvent` is not
     * unwrapped, so a failed request still resolves).
     */
    method HandleDeleteOk() returns (calls: seq<EventCall>)
      modifies this`isDeleteModalOpen
      ensures currentEvent.None? ==> calls == [] && isDeleteModalOpen == old(isDeleteModalOpen)
      ensures currentEvent.Some? ==> calls == [DeleteEvents([currentEvent.value.key]), Refetch] && !isDeleteModalOpen
    {
      calls := [];
      if currentEvent.Some? {
        calls := [DeleteEvents([currentEvent.value.key])];
        isDeleteModalOpen := false;
        calls := calls + [Refetch];
      }
    }

    method HandleCancel()
      modifies this`isModalOpen
      ensures !isModalOpen
    {
      isModalOpen := false;
    }

    method HandleDeleteCancel()
      modifies this`isDeleteModalOpen
      ensures !isDeleteModalOpen
    {
      isDeleteModalOpen := false;
    }
  }

  /**
   * The create modal after a file was picked in each slot: the intro crop
   * finished (done, previewed from its local object URL), the banner upload
   * still running.
   */
  method PickBothImages(f1: LocalFile, f2: LocalFile) returns (screen: EventsScreen)
    ensures fresh(screen)
    ensures !screen.isEdit && screen.sessions == [] && screen.seats == PresetSeats
    ensures PendingFile(screen.introFiles) == Some(f1) && PendingFile(screen.bannerFiles) == Some(f2)
    ensures screen.introImageUrl == Some("blob:intro") && screen.bannerImageUrl == None
  {
    screen := new EventsScreen();
    screen.LoadPresets();
    screen.ShowModal(None);
    var picked1 := UploadFile("rc-1", "intro.png", Done, None, Some(f1), None);
    screen.IntroImageChange([picked1], "blob:intro");
    var picked2 := UploadFile("rc-2", "banner.png", Uploading, None, Some(f2), None);
    screen.BannerImageChange(picked2, [picked2]);
  }

  /**
   * Creating an event with a freshly picked file on each slot uploads the
   * intro image, then the banner image, then creates the event with the two
   * returned URLs.
   */
  method CreateWithTwoImages(values: FormValues, f1: LocalFile, f2: LocalFile, u1: string, u2: string,
                             now: int, dayMillis: string -> int, timeMillis: string -> int)
      returns (calls: seq<EventCall>)
    requires SatisfiesRules(values)
    ensures |calls| == 4 && calls[0] == UploadImage(IntroFolder, f1) && calls[1] == UploadImage(BannerFolder, f2)
    ensures calls[2].CreateEvent? && calls[2].payload.introImage == Some(u1) && calls[2].payload.bannerImage == Some(u2)
    ensures calls[2].payload.prices == Prices(PresetSeats) && calls[2].payload.sessions == []
    ensures calls[3] == Refetch
  {
    var screen := PickBothImages(f1, f2);
    ghost var base := BuildPayload(values, [], PresetSeats, Some("blob:intro"), None, now, dayMillis, timeMillis);
    assert base.prices == Prices(PresetSeats) && base.sessions == [];
    BothUploadsResolve(base, f1, f2, u1, u2);
    calls := screen.HandleOk(Resolved(values), now, dayMillis, timeMillis, Resolved(u1), Resolved(u2), true);
  }

  /** Both slots pending and every call resolving: two uploads, the create with both URLs, the refetch. */
  lemma BothUploadsResolve(base: Payload, f1: LocalFile, f2: LocalFile, u1: string, u2: string)
    ensures CreateCalls(base, Some(f1), Resolved(u1), Some(f2), Resolved(u2), true)
         == [UploadImage(IntroFolder, f1), UploadImage(BannerFolder, f2),
             CreateEvent(base.(introImage := Some(u1), bannerImage := Some(u2))), Refetch]
  {
  }

  /** The edit modal for `row` once its details have been fetched. */
  method OpenFetchedEvent(row: EventRow, details: EventDetails, formatDay: int -> string) returns (screen: EventsScreen)
    ensures fresh(screen)
    ensures screen.isEdit && screen.currentEvent == Some(row)
    ensures screen.seats == HydratedSeats(DetailSessions(details))
  {
    screen := new EventsScreen();
    screen.ShowModal(Some(row));
    screen.HydrateFromDetails(details, formatDay);
  }

  /**
   * Editing a fetched event uploads nothing, even when every upload would
   * fail: one update with the form's image values and the fetched first
   * session's prices, then the refetch.
   */
  method EditSendsFormImages(row: EventRow, details: EventDetails, values: FormValues, formatDay: int -> string,
                             now: int, dayMillis: string -> int, timeMillis: string -> int)
      returns (calls: seq<EventCall>)
    requires SatisfiesRules(values)
    ensures |calls| == 2 && calls[0].UpdateEvent? && calls[0].id == row.key && calls[1] == Refetch
    ensures calls[0].payload.introImage == values.introImage
    ensures calls[0].payload.bannerImage == values.bannerImage
    ensures calls[0].payload.prices == if DetailSessions(details) == [] then [] else DetailSessions(details)[0].prices
  {
    var screen := OpenFetchedEvent(row, details, formatDay);
    HydratedPricesRoundTrip(DetailSessions(details));
    ghost var base := BuildPayload(values, screen.sessions, screen.seats, screen.introImageUrl, screen.bannerImageUrl,
                                   now, dayMillis, timeMillis);
    FormImagesWin(values, screen.sessions, screen.seats, screen.introImageUrl, screen.bannerImageUrl,
                  now, dayMillis, timeMillis);
    calls := screen.HandleOk(Resolved(values), now, dayMillis, timeMillis, Rejected, Rejected, true);
  }
}
