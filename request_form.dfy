/**
  The detailed request form and the quick request form of
  public/static/js/request.js: collecting the submitted fields into a
  dictionary, the required-field checks, the text of the message sent to a
  messenger, and the label lookups it uses.
 */
module RequestForm {
  import opened Wrappers

  // ---------------------------------------------------------------------------
  // The `data` dictionary
  // ---------------------------------------------------------------------------

  /** A property of `data`: a field's string, or the array the `services[]` entries are pushed onto. */
  datatype FormValue = Text(text: string) | List(items: seq<string>)

  type FormData = map<string, FormValue>

  /** Reading `data[key]`: `None` stands for `undefined`. */
  function Get(data: FormData, key: string): Option<FormValue> {
    if key in data then Some(data[key]) else None
  }

  /** JavaScript truthiness of a property read: `undefined` and `''` are falsy, any array is truthy. */
  predicate Truthy(v: Option<FormValue>) {
    match v
    case None => false
    case Some(Text(s)) => s != ""
    case Some(List(_)) => true
  }

  /** `data.key` is truthy. */
  predicate Has(data: FormData, key: string) {
    Truthy(Get(data, key))
  }

  /** The `TypeError`s a hostile or unusual form can raise. */
  datatype FormError =
    | PushOnString     // `data.services.push` when `data.services` is a non-empty string
    | ForEachOnString  // `data.services.forEach` when `data.services` is a non-empty string

  const ServicesEntry: string := "services[]"
  const ServicesKey: string := "services"

  /** One step of `formData.forEach((value, key) => ...)`. */
  function Insert(data: FormData, key: string, value: string): Result<FormData, FormError> {
    if key == ServicesEntry then
      var list := if Has(data, ServicesKey) then data[ServicesKey] else List([]);
      match list
      case List(xs) => Success(data[ServicesKey := List(xs + [value])])
      case Text(_) => Failure(PushOnString)
    else
      Success(data[key := Text(value)])
  }

  /** The dictionary after folding `entries` (in form order) into an empty `data`, or the error that stopped it. */
  function Folded(entries: seq<(string, string)>): Result<FormData, FormError> {
    if entries == [] then Success(map[])
    else
      var last := entries[|entries| - 1];
      match Folded(entries[..|entries| - 1])
      case Failure(e) => Failure(e)
      case Success(d) => Insert(d, last.0, last.1)
  }

  /** Once an entry has raised, the rest of the fold does not run. */
  lemma {:induction false} FailureSticks(entries: seq<(string, string)>, n: nat)
    requires n <= |entries| && Folded(entries[..n]).Failure?
    ensures Folded(entries) == Folded(entries[..n])
    decreases |entries| - n
  {
    if n < |entries| {
      var front := entries[..|entries| - 1];
      assert front[..n] == entries[..n];
      FailureSticks(front, n);
    } else {
      assert entries[..n] == entries;
    }
  }

  /** Lines 50-60 of the submit handler: the entries of `new FormData(form)` folded into `data`. */
  method CollectFormData(entries: seq<(string, string)>) returns (r: Result<FormData, FormError>)
    ensures r == Folded(entries)
  {
    var data: FormData := map[];
    for i := 0 to |entries|
      invariant Folded(entries[..i]) == Success(data)
    {
      var (key, value) := entries[i];
      assert entries[..i + 1][..i] == entries[..i];
      assert Folded(entries[..i + 1]) == Insert(data, key, value);
      if key == ServicesEntry {
        ghost var before := data;
        if !Has(data, ServicesKey) {
          data := data[ServicesKey := List([])];
        }
        assert data[ServicesKey] == if Has(before, ServicesKey) then before[ServicesKey] else List([]);
        match data[ServicesKey]
        case Text(_) =>
          FailureSticks(entries, i + 1);
          return Failure(PushOnString);
        case List(xs) =>
          data := data[ServicesKey := List(xs + [value])];
          assert data == before[ServicesKey := List(xs + [value])];
      } else {
        data := data[key := Text(value)];
      }
    }
    assert entries[..|entries|] == entries;
    return Success(data);
  }

  /** The values of the `services[]` entries, in form order. */
  function ServiceValues(entries: seq<(string, string)>): seq<string> {
    if entries == [] then []
    else
      var last := entries[|entries| - 1];
      ServiceValues(entries[..|entries| - 1]) + (if last.0 == ServicesEntry then [last.1] else [])
  }

  /** The value of the last entry named `key`, if any. */
  function LastValue(entries: seq<(string, string)>, key: string): Option<string> {
    if entries == [] then None
    else
      var last := entries[|entries| - 1];
      if last.0 == key then Some(last.1) else LastValue(entries[..|entries| - 1], key)
  }

  /** No field of the form is itself named `services`. */
  predicate NoPlainServices(entries: seq<(string, string)>) {
    forall i | 0 <= i < |entries| :: entries[i].0 != ServicesKey
  }

  /**
    Without a field named `services`, the fold cannot raise, and
    `data.services` is the array of the `services[]` values in form order,
    absent when there are none.
   */
  lemma {:induction false} ServicesCollectedInOrder(entries: seq<(string, string)>)
    requires NoPlainServices(entries)
    ensures Folded(entries).Success?
    ensures ServicesKey in Folded(entries).value <==> ServiceValues(entries) != []
    ensures ServicesKey in Folded(entries).value ==>
      Folded(entries).value[ServicesKey] == List(ServiceValues(entries))
  {
    if entries != [] {
      var front := entries[..|entries| - 1];
      assert NoPlainServices(front) by {
        forall i | 0 <= i < |front|
          ensures front[i].0 != ServicesKey
        {
          assert front[i] == entries[i];
        }
      }
      ServicesCollectedInOrder(front);
      assert entries[|entries| - 1].0 != ServicesKey;
    }
  }

  /**
    For every other key the last entry wins; the key `services` also obeys
    this when there is no `services[]` entry.
   */
  lemma {:induction false} LastValueWins(entries: seq<(string, string)>, key: string)
    requires key != ServicesEntry
    requires key == ServicesKey ==> ServiceValues(entries) == []
    requires Folded(entries).Success?
    ensures Get(Folded(entries).value, key) ==
      match LastValue(entries, key)
      case None => None
      case Some(v) => Some(Text(v))
  {
    if entries != [] {
      var front := entries[..|entries| - 1];
      assert Folded(front).Success?;
      assert key == ServicesKey ==> ServiceValues(front) == [];
      LastValueWins(front, key);
    }
  }

  /** The key `services[]` itself never ends up in `data`. */
  lemma {:induction false} BracketKeyNeverStored(entries: seq<(string, string)>)
    requires Folded(entries).Success?
    ensures ServicesEntry !in Folded(entries).value
  {
    if entries != [] {
      var front := entries[..|entries| - 1];
      assert Folded(front).Success?;
      BracketKeyNeverStored(front);
    }
  }

  // ---------------------------------------------------------------------------
  // Required-field checks
  // ---------------------------------------------------------------------------

  datatype Verdict = MissingContact | MissingConsent | Proceed

  /** Lines 63-71: name and phone are checked before the consent box. */
  function CheckDetailed(data: FormData): (v: Verdict)
    ensures v == Proceed <==> Has(data, "name") && Has(data, "phone") && Has(data, "agree")
    ensures v == MissingContact <==> !Has(data, "name") || !Has(data, "phone")
    ensures v == MissingConsent <==> Has(data, "name") && Has(data, "phone") && !Has(data, "agree")
  {
    if !Has(data, "name") || !Has(data, "phone") then MissingContact
    else if !Has(data, "agree") then MissingConsent
    else Proceed
  }

  /** A `?.value` read is truthy: the element exists and its value is not empty. */
  predicate Filled(s: Option<string>) {
    s.Some? && s.value != ""
  }

  /** The quick form (lines 180-194) reads the elements directly; `None` is a missing element. */
  function CheckQuick(name: Option<string>, phone: Option<string>, agree: Option<bool>): (v: Verdict)
    ensures v == Proceed <==> Filled(name) && Filled(phone) && agree == Some(true)
    ensures v == MissingContact <==> !Filled(name) || !Filled(phone)
    ensures v == MissingConsent <==> Filled(name) && Filled(phone) && agree != Some(true)
  {
    if !Filled(name) || !Filled(phone) then MissingContact
    else if agree != Some(true) then MissingConsent
    else Proceed
  }

  /** The dictionary a `FormData` of the quick form's fields would give: a checked box submits `on`, an unchecked one nothing. */
  function QuickData(name: Option<string>, phone: Option<string>, agree: Option<bool>): FormData {
    var withName: FormData := if name.Some? then map["name" := Text(name.value)] else map[];
    var withPhone := if phone.Some? then withName["phone" := Text(phone.value)] else withName;
    if agree == Some(true) then withPhone["agree" := Text("on")] else withPhone
  }

  /** The quick form applies the same rule as the detailed one. */
  lemma QuickAgreesWithDetailed(name: Option<string>, phone: Option<string>, agree: Option<bool>)
    ensures CheckQuick(name, phone, agree) == CheckDetailed(QuickData(name, phone, agree))
  {
    var d := QuickData(name, phone, agree);
    assert Has(d, "name") == Filled(name);
    assert Has(d, "phone") == Filled(phone);
    assert Has(d, "agree") == (agree == Some(true));
  }

  // ---------------------------------------------------------------------------
  // Label lookups, `table[key] || key`
  // ---------------------------------------------------------------------------

  const ContactMethods: map<string, string> := map[
    "phone" := "Телефон", "whatsapp" := "WhatsApp", "telegram" := "Telegram", "email" := "Email"]

  const CargoTypes: map<string, string> := map[
    "documents" := "Документы", "parcels" := "Посылки/коробки", "pallets" := "Паллеты",
    "equipment" := "Оборудование", "furniture" := "Мебель", "fragile" := "Хрупкие грузы",
    "oversized" := "Негабаритные грузы", "other" := "Другое"]

  const Services: map<string, string> := map[
    "express" := "Экспресс-доставка", "insurance" := "Страхование груза",
    "packaging" := "Упаковка", "loading" := "Погрузка/разгрузка"]

  /** `table[key] || key`: a missing label, or an empty one, falls back to the key. */
  function Label(table: map<string, string>, key: string): (r: string)
    ensures key in table && table[key] != "" ==> r == table[key]
    ensures key !in table || table[key] == "" ==> r == key
  {
    var hit := if key in table then table[key] else "";
    if hit != "" then hit else key
  }

  /** `getContactMethodName`. */
  function ContactMethodName(key: string): (r: string)
    ensures key in ContactMethods ==> r == ContactMethods[key]
    ensures key !in ContactMethods ==> r == key
  {
    Label(ContactMethods, key)
  }

  /** `getCargoTypeName`. */
  function CargoTypeName(key: string): (r: string)
    ensures key in CargoTypes ==> r == CargoTypes[key]
    ensures key !in CargoTypes ==> r == key
  {
    Label(CargoTypes, key)
  }

  /** `getServiceName`. */
  function ServiceName(key: string): (r: string)
    ensures key in Services ==> r == Services[key]
    ensures key !in Services ==> r == key
  {
    Label(Services, key)
  }

  // ---------------------------------------------------------------------------
  // The message for messengers
  // ---------------------------------------------------------------------------

  /** `xs.join(',')`, which is how an array is written into a template literal. */
  function Join(xs: seq<string>): string {
    if xs == [] then ""
    else if |xs| == 1 then xs[0]
    else Join(xs[..|xs| - 1]) + "," + xs[|xs| - 1]
  }

  /** `${v}` for a property read. */
  function Show(v: Option<FormValue>): string {
    match v
    case None => "undefined"
    case Some(Text(s)) => s
    case Some(List(xs)) => Join(xs)
  }

  /** `${data.key}`. */
  function Field(data: FormData, key: string): string {
    Show(Get(data, key))
  }

  /** `.length` of a property value. */
  function Length(v: FormValue): nat {
    match v
    case Text(s) => |s|
    case List(xs) => |xs|
  }

  const Header: string := "🚚 *Новая заявка на грузоперевозку*\n\n"
  const RouteHeading: string := "📍 *Маршрут:*\n"
  const CargoHeading: string := "📦 *Груз:*\n"
  const ServicesHeading: string := "⚙️ *Доп. услуги:*\n"
  const CommentHeading: string := "💬 *Комментарий:*\n"

  /** `text` when `data.key` is truthy, otherwise nothing. */
  function When(data: FormData, key: string, text: string): string {
    if Has(data, key) then text else ""
  }

  /*
    Each block of the message is given as what it appends to the message
    built so far, `m`, in the order of the `+=` statements of `formatMessage`.
   */

  /** Lines 96-100: contact, optional company, phone, optional e-mail, preferred contact method. */
  function AddContact(data: FormData, m: string): (r: string)
    ensures m <= r
  {
    m + NameLine(data) + When(data, "company", CompanyLine(data)) + PhoneLine(data)
    + When(data, "email", EmailLine(data)) + MethodLine(data)
  }

  function NameLine(data: FormData): string { "👤 *Контакт:* " + Field(data, "name") + "\n" }
  function CompanyLine(data: FormData): string { "🏢 *Компания:* " + Field(data, "company") + "\n" }
  function PhoneLine(data: FormData): string { "📞 *Телефон:* " + Field(data, "phone") + "\n" }
  function EmailLine(data: FormData): string { "📧 *Email:* " + Field(data, "email") + "\n" }
  function MethodLine(data: FormData): string { "💬 *Связь:* " + ContactMethodName(Field(data, "contactMethod")) + "\n\n" }

  /** The route block is written when a city of departure or arrival is given. */
  predicate HasRoute(data: FormData) {
    Has(data, "cityFrom") || Has(data, "cityTo")
  }

  /** Lines 102-110: the route block. */
  function AddRoute(data: FormData, m: string): (r: string)
    ensures m <= r
  {
    if HasRoute(data) then
      m + RouteHeading
      + When(data, "cityFrom", "  Откуда: " + Field(data, "cityFrom"))
      + When(data, "addressFrom", " (" + Field(data, "addressFrom") + ")")
      + "\n"
      + When(data, "cityTo", "  Куда: " + Field(data, "cityTo"))
      + When(data, "addressTo", " (" + Field(data, "addressTo") + ")")
      + "\n\n"
    else m
  }

  /** The cargo block is written when a type, a weight or a volume is given. */
  predicate HasCargo(data: FormData) {
    Has(data, "cargoType") || Has(data, "weight") || Has(data, "volume")
  }

  /** Lines 112-120: the cargo block. */
  function AddCargo(data: FormData, m: string): (r: string)
    ensures m <= r
  {
    if HasCargo(data) then
      m + CargoHeading
      + When(data, "cargoType", "  Тип: " + CargoTypeName(Field(data, "cargoType")) + "\n")
      + When(data, "weight", "  Вес: " + Field(data, "weight") + " кг\n")
      + When(data, "volume", "  Объём: " + Field(data, "volume") + " м³\n")
      + When(data, "places", "  Мест: " + Field(data, "places") + "\n")
      + When(data, "cargoValue", "  Ценность: " + Field(data, "cargoValue") + " ₽\n")
      + "\n"
    else m
  }

  /** The line for one requested service. */
  function ServiceLine(service: string): string {
    "  ✓ " + ServiceName(service) + "\n"
  }

  /** The lines for a list of services, one per entry. */
  function ServiceLines(services: seq<string>): string {
    if services == [] then ""
    else ServiceLines(services[..|services| - 1]) + ServiceLine(services[|services| - 1])
  }

  /** Lines 122-128: the services block, or the error of `forEach` on a non-empty string. */
  function AddServices(data: FormData, m: string): (r: Result<string, FormError>)
    ensures r.Success? ==> m <= r.value
  {
    match Get(data, ServicesKey)
    case Some(List(xs)) => Success(if xs == [] then m else m + ServicesHeading + ServiceLines(xs) + "\n")
    case Some(Text(s)) => if s == "" then Success(m) else Failure(ForEachOnString)
    case None => Success(m)
  }

  /** Lines 130-132: the comment block. */
  function AddComment(data: FormData, m: string): (r: string)
    ensures m <= r
  {
    m + When(data, "comment", CommentHeading + Field(data, "comment") + "\n")
  }

  /** The text `formatMessage(data)` returns: the header followed by the blocks in order. */
  function Message(data: FormData): Result<string, FormError> {
    var m := AddCargo(data, AddRoute(data, AddContact(data, Header)));
    match AddServices(data, m)
    case Failure(e) => Failure(e)
    case Success(m') => Success(AddComment(data, m'))
  }

  /** Lines 96-100, appending to `message`. */
  method WriteContact(data: FormData, start: string) returns (message: string)
    ensures message == AddContact(data, start)
  {
    message := start;
    message := message + ("👤 *Контакт:* " + Field(data, "name") + "\n");
    ghost var expected := message;
    if Has(data, "company") {
      message := message + ("🏢 *Компания:* " + Field(data, "company") + "\n");
    }
    expected := expected + When(data, "company", "🏢 *Компания:* " + Field(data, "company") + "\n");
    assert message == expected;
    message := message + ("📞 *Телефон:* " + Field(data, "phone") + "\n");
    expected := message;
    if Has(data, "email") {
      message := message + ("📧 *Email:* " + Field(data, "email") + "\n");
    }
    expected := expected + When(data, "email", "📧 *Email:* " + Field(data, "email") + "\n");
    assert message == expected;
    message := message + ("💬 *Связь:* " + ContactMethodName(Field(data, "contactMethod")) + "\n\n");
  }

  /** Lines 102-110, appending to `message`. */
  method WriteRoute(data: FormData, start: string) returns (message: string)
    ensures message == AddRoute(data, start)
  {
    message := start;
    if Has(data, "cityFrom") || Has(data, "cityTo") {
      message := message + RouteHeading;
      ghost var expected := message;
      if Has(data, "cityFrom") {
        message := message + ("  Откуда: " + Field(data, "cityFrom"));
      }
      expected := expected + When(data, "cityFrom", "  Откуда: " + Field(data, "cityFrom"));
      assert message == expected;
      if Has(data, "addressFrom") {
        message := message + (" (" + Field(data, "addressFrom") + ")");
      }
      expected := expected + When(data, "addressFrom", " (" + Field(data, "addressFrom") + ")");
      assert message == expected;
      message := message + "\n";
      expected := message;
      if Has(data, "cityTo") {
        message := message + ("  Куда: " + Field(data, "cityTo"));
      }
      expected := expected + When(data, "cityTo", "  Куда: " + Field(data, "cityTo"));
      assert message == expected;
      if Has(data, "addressTo") {
        message := message + (" (" + Field(data, "addressTo") + ")");
      }
      expected := expected + When(data, "addressTo", " (" + Field(data, "addressTo") + ")");
      assert message == expected;
      message := message + "\n\n";
    }
  }

  /** Lines 112-120, appending to `message`. */
  method WriteCargo(data: FormData, start: string) returns (message: string)
    ensures message == AddCargo(data, start)
  {
    message := start;
    if Has(data, "cargoType") || Has(data, "weight") || Has(data, "volume") {
      var typeName := CargoTypeName(Field(data, "cargoType"));
      message := message + CargoHeading;
      if Has(data, "cargoType") {
        message := message + ("  Тип: " + typeName + "\n");
      }
      ghost var expected := start + CargoHeading + When(data, "cargoType", "  Тип: " + typeName + "\n");
      assert message == expected;
      if Has(data, "weight") {
        message := message + ("  Вес: " + Field(data, "weight") + " кг\n");
      }
      expected := expected + When(data, "weight", "  Вес: " + Field(data, "weight") + " кг\n");
      assert message == expected;
      if Has(data, "volume") {
        message := message + ("  Объём: " + Field(data, "volume") + " м³\n");
      }
      expected := expected + When(data, "volume", "  Объём: " + Field(data, "volume") + " м³\n");
      assert message == expected;
      if Has(data, "places") {
        message := message + ("  Мест: " + Field(data, "places") + "\n");
      }
      expected := expected + When(data, "places", "  Мест: " + Field(data, "places") + "\n");
      assert message == expected;
      if Has(data, "cargoValue") {
        message := message + ("  Ценность: " + Field(data, "cargoValue") + " ₽\n");
      }
      expected := expected + When(data, "cargoValue", "  Ценность: " + Field(data, "cargoValue") + " ₽\n");
      assert message == expected;
      message := message + "\n";
    }
  }

  /** Lines 122-128, appending to `message`: one line per service, by a loop. */
  method WriteServices(data: FormData, start: string) returns (r: Result<string, FormError>)
    ensures r == AddServices(data, start)
  {
    var message := start;
    if Has(data, ServicesKey) && Length(data[ServicesKey]) > 0 {
      message := message + ServicesHeading;
      match data[ServicesKey]
      case Text(_) =>
        return Failure(ForEachOnString);
      case List(xs) =>
        for i := 0 to |xs|
          invariant message == start + ServicesHeading + ServiceLines(xs[..i])
        {
          assert ServiceLines(xs[..i + 1]) == ServiceLines(xs[..i]) + ServiceLine(xs[i]) by {
            assert xs[..i + 1][..i] == xs[..i];
          }
          message := message + ServiceLine(xs[i]);
        }
        assert xs[..|xs|] == xs;
      message := message + "\n";
    }
    return Success(message);
  }

  /** Lines 130-132, appending to `message`. */
  method WriteComment(data: FormData, start: string) returns (message: string)
    ensures message == AddComment(data, start)
  {
    message := start;
    if Has(data, "comment") {
      message := message + (CommentHeading + Field(data, "comment") + "\n");
    }
  }

  /** `formatMessage`: the header, then each block appended in turn. */
  method FormatMessage(data: FormData) returns (r: Result<string, FormError>)
    ensures r == Message(data)
  {
    var message := Header;
    message := WriteContact(data, message);
    message := WriteRoute(data, message);
    message := WriteCargo(data, message);
    var withServices := WriteServices(data, message);
    if withServices.Failure? {
      return Failure(withServices.error);
    }
    message := WriteComment(data, withServices.value);
    return Success(message);
  }

  // ---------------------------------------------------------------------------
  // Properties of the message
  // ---------------------------------------------------------------------------

  /** Service lines of two lists laid end to end are the lines of the joined list. */
  lemma {:induction false} ServiceLinesAppend(xs: seq<string>, ys: seq<string>)
    ensures ServiceLines(xs + ys) == ServiceLines(xs) + ServiceLines(ys)
    decreases |ys|
  {
    if ys == [] {
      assert xs + ys == xs;
    } else {
      var front := ys[..|ys| - 1];
      assert (xs + ys)[..|xs + ys| - 1] == xs + front;
      ServiceLinesAppend(xs, front);
    }
  }

  /** Each service gets its own line, in list order: the lines of those before it, its line, the lines of those after it. */
  lemma {:induction false} ServiceLineAt(xs: seq<string>, i: nat)
    requires i < |xs|
    ensures ServiceLines(xs) == ServiceLines(xs[..i]) + ServiceLine(xs[i]) + ServiceLines(xs[i + 1..])
  {
    assert xs[..i + 1] == xs[..i] + [xs[i]];
    assert xs == xs[..i + 1] + xs[i + 1..];
    ServiceLinesAppend(xs[..i + 1], xs[i + 1..]);
    ServiceLinesAppend(xs[..i], [xs[i]]);
    assert ServiceLines([xs[i]]) == ServiceLines([]) + ServiceLine(xs[i]);
  }

  /** The message fails exactly when `data.services` is a non-empty string. */
  lemma MessageFailsOnlyOnStringServices(data: FormData)
    ensures Message(data).Failure? <==> exists s | Get(data, ServicesKey) == Some(Text(s)) :: s != ""
  {
    if Message(data).Failure? {
      var s := Get(data, ServicesKey).value.text;
      assert Get(data, ServicesKey) == Some(Text(s));
    }
  }

  lemma PrefixTransitive(a: string, b: string, c: string)
    requires a <= b && b <= c
    ensures a <= c
  {
    assert c[..|a|] == c[..|b|][..|a|];
  }

  /** The message starts with the header followed by the contact block. */
  lemma MessageOpening(data: FormData)
    requires Message(data).Success?
    ensures Header <= AddContact(data, Header) <= Message(data).value
  {
    var m0 := AddContact(data, Header);
    var m1 := AddRoute(data, m0);
    var m2 := AddCargo(data, m1);
    var m3 := AddServices(data, m2).value;
    PrefixTransitive(m0, m1, m2);
    PrefixTransitive(m0, m2, m3);
    PrefixTransitive(m0, m3, AddComment(data, m3));
  }

  /**
    A block made of an opening line `a`, an optional line `c`, a line `p`, an
    optional line `e` and a closing line `z`, appended to `m`, cut back into
    its lines by their lengths.
   */
  lemma OptionalLines(m: string, a: string, c: string, hasC: bool, p: string, e: string, hasE: bool, z: string)
    ensures var r := m + a + (if hasC then c else "") + p + (if hasE then e else "") + z;
      var head, tail := |m| + |a|, |r| - |z|;
      && |r| == |m| + |a| + |p| + |z| + (if hasC then |c| else 0) + (if hasE then |e| else 0)
      && m + a <= r
      && r[tail..] == z
      && (hasC ==> r[head..head + |c|] == c)
      && (!hasC ==> r[head..head + |p|] == p)
      && (hasE ==> r[tail - |e|..tail] == e)
      && (!hasE ==> r[tail - |p|..tail] == p)
      && var at := head + (if hasC then |c| else 0); r[at..at + |p|] == p
  {
    var c', e' := if hasC then c else "", if hasE then e else "";
    var r := m + a + c' + p + e' + z;
    assert r == (m + a) + (c' + p + e' + z);
    assert r == (m + a + c') + (p + (e' + z));
    assert r == (m + a + c' + p) + e' + z;
  }

  /**
    The contact block, line by line: it opens with the contact line, the
    company line follows it exactly when a company is given (otherwise the
    phone line does), the phone line always comes next, the e-mail line
    precedes the last line exactly when an e-mail is given (otherwise the
    phone line does), and it closes with the preferred-contact line.
   */
  lemma ContactBlockLines(data: FormData, m: string)
    ensures var r := AddContact(data, m);
      var head, tail := |m| + |NameLine(data)|, |r| - |MethodLine(data)|;
      && |r| == |m| + |NameLine(data)| + |PhoneLine(data)| + |MethodLine(data)|
             + (if Has(data, "company") then |CompanyLine(data)| else 0)
             + (if Has(data, "email") then |EmailLine(data)| else 0)
      && m + NameLine(data) <= r
      && r[tail..] == MethodLine(data)
      && (Has(data, "company") ==> r[head..head + |CompanyLine(data)|] == CompanyLine(data))
      && (!Has(data, "company") ==> r[head..head + |PhoneLine(data)|] == PhoneLine(data))
      && (Has(data, "email") ==> r[tail - |EmailLine(data)|..tail] == EmailLine(data))
      && (!Has(data, "email") ==> r[tail - |PhoneLine(data)|..tail] == PhoneLine(data))
      && var at := head + (if Has(data, "company") then |CompanyLine(data)| else 0);
         r[at..at + |PhoneLine(data)|] == PhoneLine(data)
  {
    OptionalLines(m, NameLine(data), CompanyLine(data), Has(data, "company"), PhoneLine(data),
                  EmailLine(data), Has(data, "email"), MethodLine(data));
    assert AddContact(data, m)
        == m + NameLine(data) + (if Has(data, "company") then CompanyLine(data) else "") + PhoneLine(data)
           + (if Has(data, "email") then EmailLine(data) else "") + MethodLine(data);
  }

  /** The route block appears exactly when a city is given, and then opens with its heading. */
  lemma RouteBlockIff(data: FormData, m: string)
    ensures AddRoute(data, m) != m <==> HasRoute(data)
    ensures HasRoute(data) ==> m + RouteHeading <= AddRoute(data, m)
  {
    if HasRoute(data) {
      assert |AddRoute(data, m)| > |m|;
    }
  }

  /** The cargo block appears exactly when a type, weight or volume is given, and then opens with its heading. */
  lemma CargoBlockIff(data: FormData, m: string)
    ensures AddCargo(data, m) != m <==> HasCargo(data)
    ensures HasCargo(data) ==> m + CargoHeading <= AddCargo(data, m)
  {
    if HasCargo(data) {
      assert |AddCargo(data, m)| > |m|;
    }
  }

  /** The contact block depends only on name, company, phone, e-mail and contact method. */
  lemma ContactReadsOnly(d1: FormData, d2: FormData, m: string)
    requires forall k | k in ["name", "company", "phone", "email", "contactMethod"] :: Get(d1, k) == Get(d2, k)
    ensures AddContact(d1, m) == AddContact(d2, m)
  {
    assert Get(d1, "name") == Get(d2, "name");
    assert Get(d1, "company") == Get(d2, "company");
    assert Get(d1, "phone") == Get(d2, "phone");
    assert Get(d1, "email") == Get(d2, "email");
    assert Get(d1, "contactMethod") == Get(d2, "contactMethod");
  }

  /** The route block depends only on the two cities and the two addresses. */
  lemma RouteReadsOnly(d1: FormData, d2: FormData, m: string)
    requires forall k | k in ["cityFrom", "addressFrom", "cityTo", "addressTo"] :: Get(d1, k) == Get(d2, k)
    ensures AddRoute(d1, m) == AddRoute(d2, m)
  {
    assert Get(d1, "cityFrom") == Get(d2, "cityFrom");
    assert Get(d1, "addressFrom") == Get(d2, "addressFrom");
    assert Get(d1, "cityTo") == Get(d2, "cityTo");
    assert Get(d1, "addressTo") == Get(d2, "addressTo");
  }

  /** The contact and route blocks do not read `places` or `cargoValue`. */
  lemma CargoDetailsOutsideRoute(data: FormData, key: string, v: FormValue)
    requires key == "places" || key == "cargoValue"
    ensures AddRoute(data[key := v], AddContact(data[key := v], Header))
         == AddRoute(data, AddContact(data, Header))
  {
    var d := data[key := v];
    assert forall k | k != key :: Get(d, k) == Get(data, k);
    ContactReadsOnly(d, data, Header);
    RouteReadsOnly(d, data, AddContact(data, Header));
  }

  /**
    Places and declared value are written only inside the cargo block: with
    no type, weight or volume, setting either leaves the message unchanged.
   */
  lemma CargoDetailsNeedCargo(data: FormData, key: string, v: FormValue)
    requires key == "places" || key == "cargoValue"
    requires !HasCargo(data)
    ensures Message(data[key := v]) == Message(data)
  {
    var d := data[key := v];
    CargoDetailsOutsideRoute(data, key, v);
    var m1 := AddRoute(data, AddContact(data, Header));
    assert AddCargo(d, m1) == m1 == AddCargo(data, m1) by {
      assert Get(d, "cargoType") == Get(data, "cargoType");
      assert Get(d, "weight") == Get(data, "weight");
      assert Get(d, "volume") == Get(data, "volume");
    }
    assert AddServices(d, m1) == AddServices(data, m1) by {
      assert Get(d, ServicesKey) == Get(data, ServicesKey);
    }
    assert forall m :: AddComment(d, m) == AddComment(data, m) by {
      assert Get(d, "comment") == Get(data, "comment");
    }
  }

  /** When a comment is given, its block is the last thing in the message. */
  lemma CommentComesLast(data: FormData)
    requires Message(data).Success? && Has(data, "comment")
    ensures var m, tail := Message(data).value, CommentHeading + Field(data, "comment") + "\n";
      |tail| <= |m| && m[|m| - |tail|..] == tail
  {
  }

  // ---------------------------------------------------------------------------
  // The submit handler of the detailed form
  // ---------------------------------------------------------------------------

  const ContactAlert: string := "Пожалуйста, заполните обязательные поля: имя и телефон"
  const ConsentAlert: string := "Пожалуйста, подтвердите согласие с политикой конфиденциальности"

  /** What one submission ends in: an alert, the composed message, or an uncaught `TypeError`. */
  datatype Outcome = Alerted(text: string) | Composed(message: string) | Raised(error: FormError)

  /** Lines 46-90: collect, check, then compose the message. */
  method SubmitDetailed(entries: seq<(string, string)>) returns (o: Outcome)
    ensures Folded(entries).Failure? ==> o == Raised(Folded(entries).error)
    ensures Folded(entries).Success? ==>
      var data := Folded(entries).value;
      match CheckDetailed(data)
      case MissingContact => o == Alerted(ContactAlert)
      case MissingConsent => o == Alerted(ConsentAlert)
      case Proceed => o == match Message(data) case Success(m) => Composed(m) case Failure(e) => Raised(e)
  {
    var r := CollectFormData(entries);
    if r.Failure? {
      return Raised(r.error);
    }
    var data := r.value;
    if !Has(data, "name") || !Has(data, "phone") {
      return Alerted(ContactAlert);
    }
    if !Has(data, "agree") {
      return Alerted(ConsentAlert);
    }
    var message := FormatMessage(data);
    match message
    case Success(m) => o := Composed(m);
    case Failure(e) => o := Raised(e);
  }

  // ---------------------------------------------------------------------------
  // The submit handler of the quick form on the home page
  // ---------------------------------------------------------------------------

  const QuickContactAlert: string := "Пожалуйста, заполните обязательные поля"

  /** The quick form either alerts or accepts the four values it logs. */
  datatype QuickOutcome =
    | QuickAlerted(text: string)
    | Accepted(name: Option<string>, phone: Option<string>, email: Option<string>, comment: Option<string>)

  /** Lines 177-209, without the button feedback and its timer. */
  method SubmitQuick(name: Option<string>, phone: Option<string>, email: Option<string>,
                     comment: Option<string>, agree: Option<bool>) returns (o: QuickOutcome)
    ensures o.Accepted? <==> CheckQuick(name, phone, agree) == Proceed
    ensures o.Accepted? ==> o == Accepted(name, phone, email, comment)
    ensures CheckQuick(name, phone, agree) == MissingContact ==> o == QuickAlerted(QuickContactAlert)
    ensures CheckQuick(name, phone, agree) == MissingConsent ==> o == QuickAlerted(ConsentAlert)
  {
    if !Filled(name) || !Filled(phone) {
      return QuickAlerted(QuickContactAlert);
    }
    if agree != Some(true) {
      return QuickAlerted(ConsentAlert);
    }
    return Accepted(name, phone, email, comment);
  }

  /**
    A form without a field named `services` never raises: a complete
    submission composes a message whose services block lists the
    `services[]` values in form order.
   */
  lemma WellFormedSubmission(entries: seq<(string, string)>)
    requires NoPlainServices(entries)
    ensures Folded(entries).Success?
    ensures Message(Folded(entries).value).Success?
    ensures forall m :: AddServices(Folded(entries).value, m) == Success(
      if ServiceValues(entries) == [] then m
      else m + ServicesHeading + ServiceLines(ServiceValues(entries)) + "\n")
  {
    ServicesCollectedInOrder(entries);
  }
}
