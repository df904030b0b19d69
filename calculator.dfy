/**
 * The quote calculator of the mini-app: the price table, the form the user fills in,
 * the transitions the buttons apply to it, the total it shows, and the payload it submits.
 *
 * Every transition in the app builds a fresh form with an object spread, so the
 * transitions are functions on a `FormData` value. The total is built by successive
 * additions to a local accumulator, so it is a method proved equal to the closed form
 * `QuoteTotal`, about which the properties of the quote are proved.
 */
module Calculator {
  import opened Wrappers
  import opened Dates

  // The price table, in roubles.
  const IndoorPrice := 2500
  const OutdoorPrice := 4200
  const WifiPrice := 3800
  const PtzPrice := 8500
  const RecorderPrice := 12000
  const InstallationPrice := 1500
  const CablePricePerMetre := 150
  const CloudPricePerMonth := 350

  /** The cable estimate assumes this many metres per camera. */
  const CableMetresPerCamera := 20

  /** The range of the storage slider, and its initial value. */
  const MinStorageDays := 3
  const MaxStorageDays := 30
  const DefaultStorageDays := 7

  datatype CameraKind = Indoor | Outdoor | Wifi | Ptz

  datatype Cameras = Cameras(indoor: nat, outdoor: nat, wifi: nat, ptz: nat)

  datatype Options = Options(mic: bool, nightVision: bool, motion: bool, cloud: bool)

  datatype FormData = FormData(
    cameras: Cameras,
    storage: int,
    options: Options,
    name: string,
    phone: string,
    address: string)

  /** The contact fields of the second step, each edited by its own text input. */
  datatype ContactField = Name | Phone | Address

  /** What `handleSubmit` sends: the form, the total it shows, and the client's own timestamp. */
  datatype Payload = Payload(form: FormData, total: int, createdAt: YearMonth)

  function UnitPrice(k: CameraKind): nat {
    match k
    case Indoor => IndoorPrice
    case Outdoor => OutdoorPrice
    case Wifi => WifiPrice
    case Ptz => PtzPrice
  }

  function Count(c: Cameras, k: CameraKind): nat {
    match k
    case Indoor => c.indoor
    case Outdoor => c.outdoor
    case Wifi => c.wifi
    case Ptz => c.ptz
  }

  /** The storage slider only produces values in its range. */
  predicate ValidForm(f: FormData) {
    MinStorageDays <= f.storage <= MaxStorageDays
  }

  // ---------------------------------------------------------------------------
  // Counting cameras
  // ---------------------------------------------------------------------------

  /** `Object.values(formData.cameras)`, in the order the fields are declared. */
  function CountValues(c: Cameras): seq<int> {
    [c.indoor, c.outdoor, c.wifi, c.ptz]
  }

  /** `reduce((a, b) => a + b, 0)`: a left fold of addition. */
  function SumLeft(xs: seq<int>): int {
    if xs == [] then 0 else SumLeft(xs[..|xs| - 1]) + xs[|xs| - 1]
  }

  /** The number of cameras chosen, whatever their kind. */
  function TotalCameras(c: Cameras): (n: nat)
    ensures n == c.indoor + c.outdoor + c.wifi + c.ptz
    ensures n == 0 <==> c == Cameras(0, 0, 0, 0)
  {
    var xs := CountValues(c);
    assert SumLeft(xs[..1]) == c.indoor by { assert xs[..1][..0] == []; }
    assert SumLeft(xs[..2]) == c.indoor + c.outdoor by { assert xs[..2][..1] == xs[..1]; }
    assert SumLeft(xs[..3]) == c.indoor + c.outdoor + c.wifi by { assert xs[..3][..2] == xs[..2]; }
    assert xs[..4] == xs;
    SumLeft(xs)
  }

  // ---------------------------------------------------------------------------
  // The quote
  // ---------------------------------------------------------------------------

  function CameraSubtotal(c: Cameras): nat {
    c.indoor * IndoorPrice + c.outdoor * OutdoorPrice + c.wifi * WifiPrice + c.ptz * PtzPrice
  }

  /**
   * The price shown for a form: the cameras at their unit prices; when any camera is
   * chosen, one recorder, installation per camera and 20 m of cable per camera; and when
   * cloud backup is on, the monthly cloud price times the storage days times the cameras.
   * The last term multiplies a day count by a monthly price, as the app does.
   */
  function QuoteTotal(f: FormData): int {
    var n := TotalCameras(f.cameras);
    CameraSubtotal(f.cameras)
    + (if n > 0 then RecorderPrice + n * InstallationPrice + n * CableMetresPerCamera * CablePricePerMetre else 0)
    + (if f.options.cloud then n * f.storage * CloudPricePerMonth else 0)
  }

  /** `calculateTotal`: builds the total by successive additions to an accumulator. */
  method CalculateTotal(f: FormData) returns (total: int)
    ensures total == QuoteTotal(f)
  {
    total := 0;
    total := total + f.cameras.indoor * IndoorPrice;
    total := total + f.cameras.outdoor * OutdoorPrice;
    total := total + f.cameras.wifi * WifiPrice;
    total := total + f.cameras.ptz * PtzPrice;

    var totalCameras := TotalCameras(f.cameras);
    if totalCameras > 0 {
      total := total + RecorderPrice;
    }
    if totalCameras > 0 {
      total := total + totalCameras * InstallationPrice;
    }
    if totalCameras > 0 {
      total := total + totalCameras * CableMetresPerCamera * CablePricePerMetre;
    }
    if f.options.cloud {
      total := total + totalCameras * f.storage * CloudPricePerMonth;
    }
  }

  /** With no camera chosen nothing is charged, whatever the storage days and the cloud flag. */
  lemma NoCamerasCostNothing(f: FormData)
    requires f.cameras == Cameras(0, 0, 0, 0)
    ensures QuoteTotal(f) == 0
  {
  }

  /** A quote is never negative. */
  lemma QuoteNonNegative(f: FormData)
    requires ValidForm(f)
    ensures QuoteTotal(f) >= 0
  {
  }

  /**
   * Only the camera counts, the cloud flag and (with cloud on) the storage days enter the
   * quote: the microphone, night-vision and motion options and the contact fields never do.
   */
  lemma QuoteDependsOnlyOnPricedFields(f: FormData, g: FormData)
    requires f.cameras == g.cameras && f.options.cloud == g.options.cloud
    requires f.options.cloud ==> f.storage == g.storage
    ensures QuoteTotal(f) == QuoteTotal(g)
  {
  }

  /** The worked example: two indoor cameras and one outdoor, seven days, no cloud. */
  lemma WorkedExample()
    ensures QuoteTotal(FormData(Cameras(2, 1, 0, 0), 7, Options(false, true, true, false), "", "", "")) == 34700
  {
  }

  /** Camera counts compared kind by kind. */
  predicate CountsAtMost(c: Cameras, d: Cameras) {
    c.indoor <= d.indoor && c.outdoor <= d.outdoor && c.wifi <= d.wifi && c.ptz <= d.ptz
  }

  /** Raising any camera counts, all else equal, never lowers the quote. */
  lemma QuoteMonotoneInCameras(f: FormData, g: FormData)
    requires ValidForm(f)
    requires f.options.cloud == g.options.cloud && f.storage == g.storage
    requires CountsAtMost(f.cameras, g.cameras)
    ensures QuoteTotal(f) <= QuoteTotal(g)
  {
    var n, m := TotalCameras(f.cameras), TotalCameras(g.cameras);
    assert n <= m;
    MulMonotone(n, m, InstallationPrice + CableMetresPerCamera * CablePricePerMetre);
    MulMonotone(n, m, f.storage * CloudPricePerMonth);
    assert n * f.storage * CloudPricePerMonth == n * (f.storage * CloudPricePerMonth);
    assert m * f.storage * CloudPricePerMonth == m * (f.storage * CloudPricePerMonth);
  }

  /** More storage days, all else equal, never lower the quote (with cloud off they do not enter it). */
  lemma QuoteMonotoneInStorage(f: FormData, g: FormData)
    requires f.cameras == g.cameras && f.options.cloud == g.options.cloud
    requires f.storage <= g.storage
    ensures QuoteTotal(f) <= QuoteTotal(g)
  {
  }

  lemma MulNonNegative(a: int, b: int)
    requires a >= 0 && b >= 0
    ensures a * b >= 0
  {
  }

  lemma MulMonotone(a: int, b: int, c: int)
    requires a <= b && c >= 0
    ensures a * c <= b * c
  {
    assert b * c - a * c == (b - a) * c;
    MulNonNegative(b - a, c);
  }

  // ---------------------------------------------------------------------------
  // Transitions of the form
  // ---------------------------------------------------------------------------

  /** The form the app starts with, and returns to after "new calculation". */
  function InitialForm(): (f: FormData)
    ensures ValidForm(f) && f.storage == DefaultStorageDays
    ensures f.cameras == Cameras(0, 0, 0, 0) && QuoteTotal(f) == 0
    ensures !f.options.cloud && !f.options.mic && f.options.nightVision && f.options.motion
    ensures f.name == [] && f.phone == [] && f.address == []
  {
    FormData(Cameras(0, 0, 0, 0), DefaultStorageDays, Options(false, true, true, false), "", "", "")
  }

  /** A camera button: one more camera of kind `k`, nothing else changes. */
  function AddCamera(f: FormData, k: CameraKind): (r: FormData)
    ensures Count(r.cameras, k) == Count(f.cameras, k) + 1
    ensures forall j :: j != k ==> Count(r.cameras, j) == Count(f.cameras, j)
    ensures r.storage == f.storage && r.options == f.options
    ensures r.name == f.name && r.phone == f.phone && r.address == f.address
    ensures ValidForm(r) == ValidForm(f)
  {
    var c := f.cameras;
    match k
    case Indoor => f.(cameras := c.(indoor := c.indoor + 1))
    case Outdoor => f.(cameras := c.(outdoor := c.outdoor + 1))
    case Wifi => f.(cameras := c.(wifi := c.wifi + 1))
    case Ptz => f.(cameras := c.(ptz := c.ptz + 1))
  }

  /**
   * What one more camera adds to the quote: its unit price, installation and cable,
   * the recorder if it is the first camera, and its cloud fee if cloud is on.
   */
  lemma AddCameraRaisesQuote(f: FormData, k: CameraKind)
    ensures QuoteTotal(AddCamera(f, k)) == QuoteTotal(f) + UnitPrice(k)
      + (if TotalCameras(f.cameras) == 0 then RecorderPrice else 0)
      + InstallationPrice + CableMetresPerCamera * CablePricePerMetre
      + (if f.options.cloud then f.storage * CloudPricePerMonth else 0)
  {
  }

  /** The reset link: every count back to zero, nothing else changes. */
  function ResetCameras(f: FormData): (r: FormData)
    ensures forall k :: Count(r.cameras, k) == 0
    ensures r.storage == f.storage && r.options == f.options
    ensures r.name == f.name && r.phone == f.phone && r.address == f.address
    ensures ValidForm(r) == ValidForm(f)
    ensures QuoteTotal(r) == 0
  {
    f.(cameras := Cameras(0, 0, 0, 0))
  }

  /** The storage slider: the new day count, nothing else changes. */
  function SetStorage(f: FormData, days: int): (r: FormData)
    requires MinStorageDays <= days <= MaxStorageDays
    ensures ValidForm(r) && r.storage == days
    ensures r.cameras == f.cameras && r.options == f.options
    ensures r.name == f.name && r.phone == f.phone && r.address == f.address
  {
    f.(storage := days)
  }

  /** The cloud option: flips the cloud flag and nothing else. */
  function ToggleCloud(f: FormData): (r: FormData)
    ensures r.options.cloud == !f.options.cloud
    ensures r.options.mic == f.options.mic && r.options.nightVision == f.options.nightVision
    ensures r.options.motion == f.options.motion
    ensures r.cameras == f.cameras && r.storage == f.storage
    ensures r.name == f.name && r.phone == f.phone && r.address == f.address
  {
    f.(options := f.options.(cloud := !f.options.cloud))
  }

  /** The microphone option: flips the microphone flag and nothing else. */
  function ToggleMic(f: FormData): (r: FormData)
    ensures r.options.mic == !f.options.mic
    ensures r.options.cloud == f.options.cloud && r.options.nightVision == f.options.nightVision
    ensures r.options.motion == f.options.motion
    ensures r.cameras == f.cameras && r.storage == f.storage
    ensures r.name == f.name && r.phone == f.phone && r.address == f.address
  {
    f.(options := f.options.(mic := !f.options.mic))
  }

  /** Toggling the cloud option twice gives back the same form. */
  lemma ToggleCloudTwice(f: FormData)
    ensures ToggleCloud(ToggleCloud(f)) == f
  {
  }

  /** A contact input: replaces one contact field and nothing else. */
  function EditContact(f: FormData, field: ContactField, value: string): (r: FormData)
    ensures r.name == (if field == Name then value else f.name)
    ensures r.phone == (if field == Phone then value else f.phone)
    ensures r.address == (if field == Address then value else f.address)
    ensures r.cameras == f.cameras && r.storage == f.storage && r.options == f.options
    ensures QuoteTotal(r) == QuoteTotal(f)
  {
    match field
    case Name => f.(name := value)
    case Phone => f.(phone := value)
    case Address => f.(address := value)
  }

  // ---------------------------------------------------------------------------
  // Submission
  // ---------------------------------------------------------------------------

  /**
   * The send button: with a name and a phone (non-empty strings are truthy), the payload
   * of `handleSubmit` — the form, its total and the client's timestamp `now`; otherwise
   * nothing is sent.
   */
  function Submit(f: FormData, now: YearMonth): (r: Option<Payload>)
    ensures r.Some? <==> f.name != [] && f.phone != []
    ensures r.Some? ==> r.value.form == f && r.value.total == QuoteTotal(f) && r.value.createdAt == now
  {
    if f.name != [] && f.phone != [] then Some(Payload(f, QuoteTotal(f), now)) else None
  }
}
