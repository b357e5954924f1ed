/** The clients screen: the fetched client list with its defaults and union filter, the
    phone search and 7-per-page paging, the add/edit form with its phone gates, and the
    coins modal that credits every client holding a phone with a share of the selected
    labs' prices and sends the first such client's new count. */
module Clients {
  import opened Text
  import opened ListView

  /** A client as the server sends it. Text the server leaves null, undefined or empty
      is the empty string here: all three are falsy to `||`. */
  datatype RawClient = RawClient(id: int, name: string, phone: string, gender: string, bonus: real, address: string)

  /** A client as the screen keeps it. */
  datatype Client = Client(id: int, name: string, phone: string, gender: string, coins: real, union: string)

  const PageSize: nat := 7
  const DefaultGender: string := "ذكر"
  const UnknownUnion: string := "غير محدد"

  // ------------------------------------------------------------ fetching

  /** The mapping in `fetchClients`: `bonus` becomes `coins`, `address` becomes `union`, and
      a falsy gender or address is replaced by its default. */
  function MapClient(c: RawClient): (r: Client)
    ensures r.id == c.id && r.name == c.name && r.phone == c.phone && r.coins == c.bonus
    ensures r.gender == if c.gender != [] then c.gender else DefaultGender
    ensures r.union == if c.address != [] then c.address else UnknownUnion
  {
    Client(c.id, c.name, c.phone, if c.gender != [] then c.gender else DefaultGender,
           c.bonus, if c.address != [] then c.address else UnknownUnion)
  }

  /** The mapping only fills gaps: every mapped client has a gender and a union to show,
      a value the server sent is kept, and a default appears only where it sent none. */
  lemma MapClientFillsOnlyGaps(c: RawClient)
    ensures var r := MapClient(c);
            && r.gender != [] && r.union != []
            && (c.gender != [] ==> r.gender == c.gender) && (c.address != [] ==> r.union == c.address)
            && (r.gender != c.gender ==> c.gender == [] && r.gender == DefaultGender)
            && (r.union != c.address ==> c.address == [] && r.union == UnknownUnion)
            && (c.gender != [] && c.address != [] ==>
                  r == Client(c.id, c.name, c.phone, c.gender, c.bonus, c.address))
  {
  }

  function MapClients(cs: seq<RawClient>): (r: seq<Client>)
    ensures |r| == |cs|
    ensures forall i :: 0 <= i < |cs| ==> r[i] == MapClient(cs[i])
  {
    if cs == [] then [] else [MapClient(cs[0])] + MapClients(cs[1..])
  }

  /** `fetchClients(unionName)`: the mapped clients of a successful reply, narrowed to one
      union when a union name is given; a reply without success, or whose `resource` is
      absent or falsy, holds no clients. (A truthy `resource` that is not an array makes
      `.map` throw instead: see `FetchThrows`.) */
  function FetchClients(body: Body<RawClient>, unionName: string): (r: seq<Client>)
    ensures SuccessfulResource(body).None? ==> r == []
    ensures SuccessfulResource(body).Some? ==> |r| <= |SuccessfulResource(body).value|
    ensures SuccessfulResource(body).Some? && unionName == [] ==> |r| == |SuccessfulResource(body).value|
  {
    match SuccessfulResource(body)
    case None => []
    case Some(raw) =>
      if unionName != [] then Filter(MapClients(raw), (c: Client) => c.union == unionName)
      else MapClients(raw)
  }

  /** `result.success` throws on a `null` reply, and `result.resource.map(...)` throws when
      the reply reports success and its `resource` is truthy but not an array; the catch
      then leaves the list as it was. */
  predicate FetchThrows(body: Body<RawClient>) {
    body.NullBody? || (body.ObjectBody? && body.success && body.resource.OtherResource?)
  }

  /** Every fetched client has a gender and a union to show. */
  lemma FetchedClientsHaveDefaults(body: Body<RawClient>, unionName: string)
    ensures forall c :: c in FetchClients(body, unionName) ==> c.gender != [] && c.union != []
  {
    match SuccessfulResource(body) {
      case None =>
      case Some(raw) =>
        var all := MapClients(raw);
        assert forall c :: c in all ==> c.gender != [] && c.union != [];
        if unionName != [] {
          forall c | c in FetchClients(body, unionName) ensures c.gender != [] && c.union != [] {
            FilterMembers(all, (c: Client) => c.union == unionName, c);
          }
        }
    }
  }

  /** A successful reply with a union name keeps, in order and as often as they occur,
      exactly the clients of that union; without a union name it keeps them all. */
  lemma FetchClientsByUnion(raw: seq<RawClient>, unionName: string, x: Client)
    ensures var r := FetchClients(ObjectBody(true, ArrayResource(raw)), unionName);
            && IsSubsequence(r, MapClients(raw))
            && (x in r <==> x in MapClients(raw) && (unionName == [] || x.union == unionName))
            && multiset(r)[x] == if unionName == [] || x.union == unionName then multiset(MapClients(raw))[x] else 0
  {
    var all := MapClients(raw);
    var p := (c: Client) => c.union == unionName;
    if unionName != [] {
      FilterIsSubsequence(all, p);
      FilterMembers(all, p, x);
      FilterCounts(all, p, x);
    } else {
      SubsequenceRefl(all);
    }
  }

  lemma {:induction false} SubsequenceRefl<T>(xs: seq<T>)
    ensures IsSubsequence(xs, xs)
    decreases |xs|
  {
    if xs != [] {
      SubsequenceRefl(xs[1..]);
    }
  }

  // ------------------------------------------------------ search and pages

  /** `filteredData`: the clients whose phone contains the search text. */
  function SearchClients(data: seq<Client>, search: string): seq<Client> {
    Filter(data, (c: Client) => Includes(Lower(c.phone), Lower(search)))
  }

  lemma SearchClientsExact(data: seq<Client>, search: string, x: Client)
    ensures IsSubsequence(SearchClients(data, search), data)
    ensures x in SearchClients(data, search) <==> x in data && OccursIn(Lower(search), Lower(x.phone))
    ensures multiset(SearchClients(data, search))[x]
            == if OccursIn(Lower(search), Lower(x.phone)) then multiset(data)[x] else 0
  {
    var p := (c: Client) => Includes(Lower(c.phone), Lower(search));
    FilterIsSubsequence(data, p);
    FilterMembers(data, p, x);
    FilterCounts(data, p, x);
    IncludesIff(Lower(x.phone), Lower(search));
  }

  // ---------------------------------------------------------- phone inputs

  /** `/^\d{10}$/`: exactly ten decimal digits. */
  predicate IsTenDigits(s: string) {
    |s| == 10 && AllDigits(s)
  }

  /** The form's phone field takes a new value only when it is all digits and at most ten
      long; otherwise the old value stays. */
  function PhoneInput(current: string, value: string): (r: string)
    ensures r == value <==> (AllDigits(value) && |value| <= 10) || value == current
    ensures r == value || r == current
  {
    if AllDigits(value) && |value| <= 10 then value else current
  }

  /** The coins modal's phone field first drops every non-digit, then applies the same cap. */
  function CoinsPhoneInput(current: string, value: string): (r: string)
    ensures r == KeepDigits(value) || r == current
    ensures |KeepDigits(value)| <= 10 ==> r == KeepDigits(value)
    ensures AllDigits(value) && |value| <= 10 ==> r == value
  {
    var digits := KeepDigits(value);
    if |digits| <= 10 then digits else current
  }

  /** Both phone fields stay digit strings of at most ten characters. */
  lemma PhoneInputsKeepShape(current: string, value: string)
    requires AllDigits(current) && |current| <= 10
    ensures AllDigits(PhoneInput(current, value)) && |PhoneInput(current, value)| <= 10
    ensures AllDigits(CoinsPhoneInput(current, value)) && |CoinsPhoneInput(current, value)| <= 10
  {
  }

  // -------------------------------------------------------------- saving

  datatype ClientForm = ClientForm(name: string, phone: string, gender: string, coins: string, union: string)

  /** The JSON body `saveUser` sends; `id` is `None` where `editUser?.id || undefined`
      leaves it undefined. */
  datatype ClientPayload = ClientPayload(name: string, phone: string, gender: string, address: string, bonus: real, id: Option<int>)

  /** The request `saveUser` makes: `Update` (PUT) while editing, `Add` (POST) otherwise. */
  datatype SaveRequest = SaveRequest(update: bool, payload: ClientPayload)

  datatype SaveError = Busy | MissingFields | BadPhone | DuplicatePhone

  /** Some client other than the edited one has this phone. */
  function PhoneTaken(data: seq<Client>, phone: string, editUser: Option<Client>): (r: bool)
    ensures r <==> exists i :: 0 <= i < |data| && data[i].phone == phone
                               && (editUser.None? || data[i].id != editUser.value.id)
  {
    if data == [] then false
    else (data[0].phone == phone && (editUser.None? || data[0].id != editUser.value.id))
         || PhoneTaken(data[1..], phone, editUser)
  }

  /** The gates of `saveUser` after the in-flight guard, in their order, and the request
      built when all pass. */
  function CheckSaveUser(data: seq<Client>, form: ClientForm, editUser: Option<Client>): (r: Result<SaveRequest, SaveError>)
    ensures r != Err(Busy)
    ensures r == Err(MissingFields) <==> form.name == [] || form.phone == []
    ensures r == Err(BadPhone) <==> form.name != [] && form.phone != [] && !IsTenDigits(form.phone)
    ensures r.Ok? <==>
              && form.name != [] && IsTenDigits(form.phone)
              && forall c :: c in data && c.phone == form.phone ==> editUser.Some? && c.id == editUser.value.id
    ensures r.Ok? ==>
              && r.value.update == editUser.Some?
              && r.value.payload.name == form.name && r.value.payload.phone == form.phone
              && r.value.payload.gender == (if form.gender != [] then form.gender else DefaultGender)
              && r.value.payload.address == form.union
              && r.value.payload.bonus == NumberOrZero(form.coins)
              && (r.value.payload.id.Some? <==> editUser.Some? && editUser.value.id != 0)
              && (r.value.payload.id.Some? ==> r.value.payload.id.value == editUser.value.id)
  {
    if form.name == [] || form.phone == [] then Err(MissingFields)
    else if !IsTenDigits(form.phone) then Err(BadPhone)
    else if PhoneTaken(data, form.phone, editUser) then
      Err(DuplicatePhone)
    else
      assert forall c :: c in data && c.phone == form.phone ==> editUser.Some? && c.id == editUser.value.id by {
        forall c | c in data && c.phone == form.phone ensures editUser.Some? && c.id == editUser.value.id {
          var i :| 0 <= i < |data| && data[i] == c;
        }
      }
      Ok(SaveRequest(editUser.Some?, ClientPayload(
        form.name, form.phone, if form.gender != [] then form.gender else DefaultGender,
        form.union, NumberOrZero(form.coins),
        if editUser.Some? && editUser.value.id != 0 then Some(editUser.value.id) else None)))
  }

  /** Editing a client without changing their phone is never refused as a duplicate when
      no other client holds that phone. */
  lemma EditKeepingOwnPhone(data: seq<Client>, c: Client, form: ClientForm)
    requires form.phone == c.phone
    requires forall d :: d in data && d.id != c.id ==> d.phone != c.phone
    ensures CheckSaveUser(data, form, Some(c)) != Err(DuplicatePhone)
  {
  }

  // ------------------------------------------------------------ coins modal

  datatype Lab = Lab(id: int, name: string, price: real)

  /** A lab ticked in the modal with the discount percentage typed for it. */
  datatype SelectedLab = SelectedLab(name: string, discount: real)

  /** `labsData.find(l => l.name === name)`: the first lab with that name. */
  function FindLab(labs: seq<Lab>, name: string): (r: Option<Lab>)
    ensures r.None? <==> forall l :: l in labs ==> l.name != name
    ensures r.Some? ==> exists i :: 0 <= i < |labs| && labs[i] == r.value && r.value.name == name
                                   && forall j :: 0 <= j < i ==> labs[j].name != name
  {
    if labs == [] then None
    else if labs[0].name == name then Some(labs[0])
    else
      var r := FindLab(labs[1..], name);
      assert forall l :: l in labs[1..] ==> l in labs;
      assert r.Some? ==> exists i :: 0 <= i < |labs| && labs[i] == r.value && r.value.name == name
                                     && forall j :: 0 <= j < i ==> labs[j].name != name by {
        if r.Some? {
          var i :| 0 <= i < |labs[1..]| && labs[1..][i] == r.value && r.value.name == name
                   && forall j :: 0 <= j < i ==> labs[1..][j].name != name;
          assert labs[i + 1] == r.value;
          assert forall j :: 0 <= j < i + 1 ==> labs[j].name != name by {
            forall j | 0 <= j < i + 1 ensures labs[j].name != name {
              if j > 0 { assert labs[j] == labs[1..][j - 1]; }
            }
          }
        }
      }
      r
  }

  /** `(price * discount) / 100`. */
  function Share(price: real, discount: real): real {
    price * discount / 100.0
  }

  /** What one selected lab adds: `price * discount / 100`, or nothing for a name no lab has. */
  function LabCoins(labs: seq<Lab>, sel: SelectedLab): real {
    match FindLab(labs, sel.name)
    case None => 0.0
    case Some(l) => Share(l.price, sel.discount)
  }

  /** The total the `forEach` accumulates over the selected labs, in order. */
  function CoinsTotal(labs: seq<Lab>, selected: seq<SelectedLab>): real {
    if selected == [] then 0.0
    else CoinsTotal(labs, selected[..|selected| - 1]) + LabCoins(labs, selected[|selected| - 1])
  }

  /** The loop of `addCoinsToUser` that adds up `totalCoins`. */
  method TotalCoins(labs: seq<Lab>, selected: seq<SelectedLab>) returns (total: real)
    ensures total == CoinsTotal(labs, selected)
  {
    total := 0.0;
    var i := 0;
    while i < |selected|
      invariant 0 <= i <= |selected|
      invariant total == CoinsTotal(labs, selected[..i])
    {
      var found := FindLab(labs, selected[i].name);
      if found.Some? {
        total := total + Share(found.value.price, selected[i].discount);
      }
      assert selected[..i + 1][..i] == selected[..i];
      i := i + 1;
    }
    assert selected[..i] == selected;
  }

  predicate DiscountsInRange(selected: seq<SelectedLab>) {
    forall k :: 0 <= k < |selected| ==> 0.0 <= selected[k].discount <= 100.0
  }

  /** The price of every selected lab that is found, added up once per selection. */
  function FoundPrice(labs: seq<Lab>, selected: seq<SelectedLab>): real {
    if selected == [] then 0.0
    else FoundPrice(labs, selected[..|selected| - 1])
         + match FindLab(labs, selected[|selected| - 1].name) { case None => 0.0 case Some(l) => l.price }
  }

  /** With non-negative prices and discounts in 0 .. 100, the credit is never negative and
      never more than the full price of the selected labs. */
  lemma {:induction false} CoinsTotalBounds(labs: seq<Lab>, selected: seq<SelectedLab>)
    requires forall l :: l in labs ==> l.price >= 0.0
    requires DiscountsInRange(selected)
    ensures 0.0 <= CoinsTotal(labs, selected) <= FoundPrice(labs, selected)
    decreases |selected|
  {
    if selected != [] {
      var init := selected[..|selected| - 1];
      assert DiscountsInRange(init) by {
        forall k | 0 <= k < |init| ensures 0.0 <= init[k].discount <= 100.0 {
          assert init[k] == selected[k];
        }
      }
      CoinsTotalBounds(labs, init);
      var last := selected[|selected| - 1];
      match FindLab(labs, last.name) {
        case None =>
        case Some(l) =>
          assert 0.0 <= last.discount <= 100.0 && l.price >= 0.0;
          ShareBounds(l.price, last.discount);
          var share := Share(l.price, last.discount);
          assert CoinsTotal(labs, selected) == CoinsTotal(labs, init) + share;
          assert FoundPrice(labs, selected) == FoundPrice(labs, init) + l.price;
          SumBounds(CoinsTotal(labs, init), FoundPrice(labs, init), share, l.price);
      }
    }
  }

  lemma SumBounds(a: real, b: real, c: real, d: real)
    requires 0.0 <= a <= b && 0.0 <= c <= d
    ensures 0.0 <= a + c <= b + d
  {
  }

  lemma ShareBounds(price: real, discount: real)
    requires price >= 0.0 && 0.0 <= discount <= 100.0
    ensures 0.0 <= Share(price, discount) <= price
  {
    assert price * (100.0 - discount) >= 0.0;
  }

  /** The total over two runs of selections is the sum of their totals. */
  lemma {:induction false} CoinsTotalAppend(labs: seq<Lab>, a: seq<SelectedLab>, b: seq<SelectedLab>)
    ensures CoinsTotal(labs, a + b) == CoinsTotal(labs, a) + CoinsTotal(labs, b)
    decreases |b|
  {
    if b == [] {
      assert a + b == a;
    } else {
      assert (a + b)[..|a + b| - 1] == a + b[..|b| - 1];
      assert (a + b)[|a + b| - 1] == b[|b| - 1];
      CoinsTotalAppend(labs, a, b[..|b| - 1]);
    }
  }

  /** `selectedLabs` after ticking (append `{name, discount: 0}`) or unticking (drop every
      entry with that name) a lab. */
  function ToggleLab(selected: seq<SelectedLab>, name: string, checked: bool): seq<SelectedLab> {
    if checked then selected + [SelectedLab(name, 0.0)]
    else Filter(selected, (l: SelectedLab) => l.name != name)
  }

  /** Ticking adds one entry and no coins; unticking leaves no entry of that name and keeps
      every other entry, in order. */
  lemma ToggleLabExact(labs: seq<Lab>, selected: seq<SelectedLab>, name: string, x: SelectedLab)
    ensures ToggleLab(selected, name, true)[..|selected|] == selected
    ensures |ToggleLab(selected, name, true)| == |selected| + 1
    ensures CoinsTotal(labs, ToggleLab(selected, name, true)) == CoinsTotal(labs, selected)
    ensures IsSubsequence(ToggleLab(selected, name, false), selected)
    ensures x in ToggleLab(selected, name, false) <==> x in selected && x.name != name
    ensures DiscountsInRange(selected) ==> DiscountsInRange(ToggleLab(selected, name, true))
    ensures DiscountsInRange(selected) ==> DiscountsInRange(ToggleLab(selected, name, false))
  {
    var p := (l: SelectedLab) => l.name != name;
    var t := ToggleLab(selected, name, true);
    assert t[..|t| - 1] == selected;
    FilterIsSubsequence(selected, p);
    FilterMembers(selected, p, x);
    var u := ToggleLab(selected, name, false);
    if DiscountsInRange(selected) {
      forall k | 0 <= k < |u| ensures 0.0 <= u[k].discount <= 100.0 {
        FilterMembers(selected, p, u[k]);
      }
    }
  }

  /** The per-lab discount field: a value that reads as a number in 0 .. 100 becomes the
      discount of every entry with that name; anything else is ignored. */
  function EditDiscount(selected: seq<SelectedLab>, name: string, text: string): (r: seq<SelectedLab>)
    ensures |r| == |selected|
    ensures forall k :: 0 <= k < |r| ==> r[k].name == selected[k].name
    ensures forall k :: 0 <= k < |r| && selected[k].name != name ==> r[k] == selected[k]
    ensures match ParseNumber(text)
            case Some(v) =>
              (0.0 <= v <= 100.0 ==> forall k :: 0 <= k < |r| && selected[k].name == name ==> r[k].discount == v)
              && (!(0.0 <= v <= 100.0) ==> r == selected)
            case None => r == selected
    ensures DiscountsInRange(selected) ==> DiscountsInRange(r)
  {
    match ParseNumber(text)
    case Some(v) =>
      if 0.0 <= v <= 100.0 then SetDiscount(selected, name, v) else selected
    case None => selected
  }

  function SetDiscount(selected: seq<SelectedLab>, name: string, v: real): (r: seq<SelectedLab>)
    ensures |r| == |selected|
    ensures forall k :: 0 <= k < |r| ==>
              r[k] == if selected[k].name == name then SelectedLab(name, v) else selected[k]
  {
    if selected == [] then []
    else [if selected[0].name == name then SelectedLab(name, v) else selected[0]]
         + SetDiscount(selected[1..], name, v)
  }

  /** Index of the first client with this phone, or `|data|` when there is none. */
  function FirstWithPhone(data: seq<Client>, phone: string): (k: nat)
    ensures k <= |data|
    ensures forall j :: 0 <= j < k ==> data[j].phone != phone
    ensures k < |data| ==> data[k].phone == phone
  {
    if data == [] || data[0].phone == phone then 0 else 1 + FirstWithPhone(data[1..], phone)
  }

  /** `data.find(u => u.phone === phone)`: the first client with this phone. */
  function FindClientByPhone(data: seq<Client>, phone: string): (r: Option<Client>)
    ensures r.None? <==> forall c :: c in data ==> c.phone != phone
    ensures r.Some? ==> var k := FirstWithPhone(data, phone);
                        k < |data| && r.value == data[k] && r.value.phone == phone
  {
    var k := FirstWithPhone(data, phone);
    if k < |data| then Some(data[k]) else None
  }

  /** The local patch of `addCoinsToUser`: every client with that phone gets `total` more
      coins. */
  function AccrueCoins(data: seq<Client>, phone: string, total: real): (r: seq<Client>)
    ensures |r| == |data|
    ensures forall k :: 0 <= k < |data| ==>
              r[k] == if data[k].phone == phone then data[k].(coins := data[k].coins + total) else data[k]
  {
    if data == [] then []
    else [if data[0].phone == phone then data[0].(coins := data[0].coins + total) else data[0]]
         + AccrueCoins(data[1..], phone, total)
  }

  function SumCoins(data: seq<Client>): real {
    if data == [] then 0.0 else data[0].coins + SumCoins(data[1..])
  }

  function CountPhone(data: seq<Client>, phone: string): nat {
    if data == [] then 0 else (if data[0].phone == phone then 1 else 0) + CountPhone(data[1..], phone)
  }

  /** What crediting should add: `total` for each client holding the phone. */
  function Credit(data: seq<Client>, phone: string, total: real): real {
    if data == [] then 0.0 else (if data[0].phone == phone then total else 0.0) + Credit(data[1..], phone, total)
  }

  lemma ScaleStep(a: real, n: nat, hit: bool)
    ensures a * (n + (if hit then 1 else 0)) as real == (if hit then a else 0.0) + a * n as real
  {
  }

  /** The credit is `total` times the number of clients holding the phone. */
  lemma {:induction false} CreditIsScaledCount(data: seq<Client>, phone: string, total: real)
    ensures Credit(data, phone, total) == total * CountPhone(data, phone) as real
  {
    if data != [] {
      CreditIsScaledCount(data[1..], phone, total);
      var hit := data[0].phone == phone;
      var n := CountPhone(data[1..], phone);
      assert CountPhone(data, phone) == n + (if hit then 1 else 0);
      assert Credit(data, phone, total) == (if hit then total else 0.0) + Credit(data[1..], phone, total);
      ScaleStep(total, n, hit);
    }
  }

  /** The patched list holds exactly the credit more coins than the list before. */
  lemma {:induction false} AccrueCoinsCredit(data: seq<Client>, phone: string, total: real)
    ensures SumCoins(AccrueCoins(data, phone, total)) == SumCoins(data) + Credit(data, phone, total)
  {
    if data != [] {
      AccrueCoinsCredit(data[1..], phone, total);
      assert AccrueCoins(data, phone, total)[1..] == AccrueCoins(data[1..], phone, total);
    }
  }

  /** Crediting adds `total` once for each client holding the phone, and nothing else:
      with one such client the coins on the screen grow by exactly `total`. */
  lemma AccrueCoinsSum(data: seq<Client>, phone: string, total: real)
    ensures SumCoins(AccrueCoins(data, phone, total)) == SumCoins(data) + total * CountPhone(data, phone) as real
  {
    AccrueCoinsCredit(data, phone, total);
    CreditIsScaledCount(data, phone, total);
  }

  /** The request `addCoinsToUser` sends: the phone and the client's new coin count. */
  datatype CoinsUpdate = CoinsUpdate(phone: string, coins: real)

  // --------------------------------------------------------- screen state

  /** The screen's React state that the handlers change. */
  class ClientsScreen {
    var data: seq<Client>
    var page: nat
    var search: string
    var filterUnion: string
    var saving: bool
    var form: ClientForm
    var editUser: Option<Client>
    var labs: seq<Lab>
    var coinsPhone: string
    var selectedLabs: seq<SelectedLab>

    /** The page is a page number, the coins phone is a digit string of at most ten, and
        every typed discount is a percentage. */
    ghost predicate Valid()
      reads this
    {
      page >= 1 && AllDigits(coinsPhone) && |coinsPhone| <= 10 && DiscountsInRange(selectedLabs)
    }

    constructor ()
      ensures Valid()
      ensures data == [] && page == 1 && search == [] && filterUnion == [] && !saving
      ensures form == ClientForm([], [], [], [], []) && editUser.None?
      ensures labs == [] && coinsPhone == [] && selectedLabs == []
    {
      data, page, search, filterUnion, saving := [], 1, [], [], false;
      form, editUser := ClientForm([], [], [], [], []), None;
      labs, coinsPhone, selectedLabs := [], [], [];
    }

    /** `paginatedData`. */
    function Shown(): (r: seq<Client>)
      reads this
      requires Valid()
      ensures |r| <= PageSize
    {
      PageSlice(SearchClients(data, search), page, PageSize)
    }

    function TotalPagesShown(): nat
      reads this
    {
      TotalPages(|SearchClients(data, search)|, PageSize)
    }

    /** `fetchClients(filterUnion)` has ended: `None` is a request or JSON parse that
        threw, which keeps the list, as does a reply on which `.map` throws. */
    method Reload(reply: Option<Body<RawClient>>)
      requires Valid()
      modifies this`data
      ensures Valid()
      ensures reply.None? || FetchThrows(reply.value) ==> data == old(data)
      ensures reply.Some? && !FetchThrows(reply.value) ==> data == FetchClients(reply.value, filterUnion)
    {
      if reply.Some? && !FetchThrows(reply.value) {
        data := FetchClients(reply.value, filterUnion);
      }
    }

    /** The labs request: its `resource`, when it is an array, becomes the lab list. */
    method LoadLabs(reply: Body<Lab>)
      requires Valid()
      modifies this`labs
      ensures Valid()
      ensures labs == if reply.ObjectBody? && reply.resource.ArrayResource? then reply.resource.items else old(labs)
    {
      if reply.ObjectBody? && reply.resource.ArrayResource? {
        labs := reply.resource.items;
      }
    }

    /** Typing in the search box: new term, back to page 1. */
    method SetSearch(value: string)
      requires Valid()
      modifies this`search, this`page
      ensures Valid()
      ensures search == value && page == 1
    {
      search := value;
      page := 1;
    }

    /** Choosing a union: new filter, back to page 1, and the list fetched again for it. */
    method SetUnionFilter(unionName: string, reply: Option<Body<RawClient>>)
      requires Valid()
      modifies this`filterUnion, this`page, this`data
      ensures Valid()
      ensures filterUnion == unionName && page == 1
      ensures reply.None? || FetchThrows(reply.value) ==> data == old(data)
      ensures reply.Some? && !FetchThrows(reply.value) ==> data == FetchClients(reply.value, unionName)
    {
      filterUnion := unionName;
      page := 1;
      Reload(reply);
    }

    method SetFormPhone(value: string)
      requires Valid()
      modifies this`form
      ensures Valid()
      ensures form == old(form).(phone := PhoneInput(old(form).phone, value))
    {
      form := form.(phone := PhoneInput(form.phone, value));
    }

    /** `saveUser` up to the request: nothing happens while a save is in flight; otherwise
        the gates run and, when they pass, `saving` is raised. */
    method SaveUser() returns (outcome: Result<SaveRequest, SaveError>)
      requires Valid()
      modifies this`saving
      ensures Valid()
      ensures old(saving) ==> outcome == Err(Busy) && saving
      ensures !old(saving) ==> outcome == CheckSaveUser(data, form, editUser) && saving == outcome.Ok?
    {
      if saving {
        return Err(Busy);
      }
      outcome := CheckSaveUser(data, form, editUser);
      if outcome.Ok? {
        saving := true;
      }
    }

    /** The save request has ended (`finally`); on success the list is fetched again,
        with `reload` the outcome of that fetch as in `Reload`. */
    method FinishSave(success: bool, reload: Option<Body<RawClient>>)
      requires Valid()
      modifies this`saving, this`data
      ensures Valid()
      ensures !saving
      ensures !success || reload.None? || FetchThrows(reload.value) ==> data == old(data)
      ensures success && reload.Some? && !FetchThrows(reload.value) ==> data == FetchClients(reload.value, filterUnion)
    {
      saving := false;
      if success {
        Reload(reload);
      }
    }

    method OpenCoinsModal()
      requires Valid()
      modifies this`coinsPhone, this`selectedLabs
      ensures Valid()
      ensures coinsPhone == [] && selectedLabs == []
    {
      coinsPhone, selectedLabs := [], [];
    }

    method SetCoinsPhone(value: string)
      requires Valid()
      modifies this`coinsPhone
      ensures Valid()
      ensures coinsPhone == CoinsPhoneInput(old(coinsPhone), value)
    {
      coinsPhone := CoinsPhoneInput(coinsPhone, value);
    }

    method ToggleSelectedLab(name: string, checked: bool)
      requires Valid()
      modifies this`selectedLabs
      ensures Valid()
      ensures selectedLabs == ToggleLab(old(selectedLabs), name, checked)
    {
      ToggleLabExact(labs, selectedLabs, name, SelectedLab(name, 0.0));
      selectedLabs := ToggleLab(selectedLabs, name, checked);
    }

    method SetLabDiscount(name: string, text: string)
      requires Valid()
      modifies this`selectedLabs
      ensures Valid()
      ensures selectedLabs == EditDiscount(old(selectedLabs), name, text)
    {
      selectedLabs := EditDiscount(selectedLabs, name, text);
    }

    /** `addCoinsToUser` up to the request: an unknown phone changes nothing; otherwise
        every client with that phone is credited and the first one's new count is sent. */
    method AddCoinsToUser() returns (request: Option<CoinsUpdate>)
      requires Valid()
      modifies this`data
      ensures Valid()
      ensures FindClientByPhone(old(data), coinsPhone).None? ==> request.None? && data == old(data)
      ensures FindClientByPhone(old(data), coinsPhone).Some? ==>
                var user := FindClientByPhone(old(data), coinsPhone).value;
                && data == AccrueCoins(old(data), coinsPhone, CoinsTotal(labs, selectedLabs))
                && request == Some(CoinsUpdate(user.phone, user.coins + CoinsTotal(labs, selectedLabs)))
    {
      var user := FindClientByPhone(data, coinsPhone);
      if user.Some? {
        var total := TotalCoins(labs, selectedLabs);
        var updated := AccrueCoins(data, user.value.phone, total);
        request := Some(CoinsUpdate(user.value.phone, user.value.coins + total));
        data := updated;
      } else {
        request := None;
      }
    }

    /** The pager is drawn only while the search shows some client. */
    method GoToPreviousPage()
      requires Valid() && |SearchClients(data, search)| > 0
      modifies this`page
      ensures Valid()
      ensures page == PrevPage(old(page), false)
    {
      page := PrevPage(page, false);
    }

    method GoToNextPage()
      requires Valid() && |SearchClients(data, search)| > 0
      modifies this`page
      ensures Valid()
      ensures page == NextPage(old(page), TotalPagesShown(), false)
    {
      page := NextPage(page, TotalPagesShown(), false);
    }
  }
}
