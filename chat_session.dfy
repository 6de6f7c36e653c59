/**
 * The data-capture logic of the text chat (components/ChatSession.tsx): the Indonesian
 * phone-number normaliser, the greeting chosen by the hour, the submit guard, the
 * customer records built from a `saveCustomerData` tool call, and the chat state whose
 * in-memory customer list is prepended to and filtered by id.
 *
 * The model service is an input: each submission is answered by a `Reply`, and the clock
 * readings used as record ids and times are the parameters `idAt` and `timeAt`.
 */
module Chat {
  import opened Types

  // ---------------------------------------------------------------------------------------
  // Phone numbers
  // ---------------------------------------------------------------------------------------

  predicate IsDigit(c: char)
  {
    '0' <= c <= '9'
  }

  predicate IsDigitString(s: string)
  {
    forall i :: 0 <= i < |s| ==> IsDigit(s[i])
  }

  /** The decimal digits of `s` in order (`s.replace(/\D/g, '')`). */
  function Digits(s: string): (d: string)
    ensures |d| <= |s| && IsDigitString(d)
  {
    if s == [] then []
    else (if IsDigit(s[0]) then [s[0]] else []) + Digits(s[1..])
  }

  lemma {:induction false} DigitsOfDigitString(s: string)
    requires IsDigitString(s)
    ensures Digits(s) == s
  {
    if s != [] {
      DigitsOfDigitString(s[1..]);
    }
  }

  lemma {:induction false} DigitsAppend(a: string, b: string)
    ensures Digits(a + b) == Digits(a) + Digits(b)
  {
    if a != [] {
      assert (a + b)[1..] == a[1..] + b;
      DigitsAppend(a[1..], b);
    } else {
      assert a + b == b;
    }
  }

  /**
   * `formatIndonesianPhoneNumber`: keeps the digits; one leading `0` becomes `62`, digits
   * already starting with `62` are kept, any other digits get `62` in front; then `+`.
   */
  function FormatIndonesianPhoneNumber(phone: string): (r: string)
    ensures |r| >= 3 && r[..3] == "+62"
    ensures IsDigitString(r[1..])
  {
    var cleanPhone := Digits(phone);
    if |cleanPhone| >= 1 && cleanPhone[0] == '0' then "+" + ("62" + cleanPhone[1..])
    else if |cleanPhone| >= 2 && cleanPhone[..2] == "62" then "+" + cleanPhone
    else "+" + ("62" + cleanPhone)
  }

  /** Non-digit characters are irrelevant: only the digit string of the input matters. */
  lemma FormatIgnoresNonDigits(phone: string)
    ensures FormatIndonesianPhoneNumber(phone) == FormatIndonesianPhoneNumber(Digits(phone))
  {
    DigitsOfDigitString(Digits(phone));
  }

  /** The documented rule: a number typed as `0` followed by digits `d` becomes `+62` then `d`. */
  lemma FormatLeadingZero(d: string)
    requires IsDigitString(d)
    ensures FormatIndonesianPhoneNumber("0" + d) == "+62" + d
  {
    assert IsDigitString("0" + d);
    DigitsOfDigitString("0" + d);
    assert ("0" + d)[1..] == d;
  }

  lemma FormatExample()
    ensures FormatIndonesianPhoneNumber("08123") == "+628123"
  {
    FormatLeadingZero("8123");
    assert "0" + "8123" == "08123";
  }

  /** A digit string already starting with `62` is only given its `+`. */
  lemma FormatKeepsCountryCode(d: string)
    requires IsDigitString(d) && |d| >= 2 && d[..2] == "62"
    ensures FormatIndonesianPhoneNumber(d) == "+" + d
  {
    DigitsOfDigitString(d);
  }

  /** Any other digit string gets `+62` in front of all its digits. */
  lemma FormatPrependsCountryCode(d: string)
    requires IsDigitString(d)
    requires !(|d| >= 1 && d[0] == '0') && !(|d| >= 2 && d[..2] == "62")
    ensures FormatIndonesianPhoneNumber(d) == "+62" + d
  {
    DigitsOfDigitString(d);
  }

  /** Normalising a normalised number changes nothing. */
  lemma FormatIdempotent(phone: string)
    ensures FormatIndonesianPhoneNumber(FormatIndonesianPhoneNumber(phone)) == FormatIndonesianPhoneNumber(phone)
  {
    var r := FormatIndonesianPhoneNumber(phone);
    assert r == "+" + r[1..];
    DigitsAppend("+", r[1..]);
    assert Digits("+") == [];
    DigitsOfDigitString(r[1..]);
    assert Digits(r) == r[1..];
    assert r[1..][..2] == "62";
  }

  // ---------------------------------------------------------------------------------------
  // Greeting
  // ---------------------------------------------------------------------------------------

  /** The greeting for the welcome message; it depends on the hour alone. */
  function Greeting(hour: int): (g: string)
    ensures g == "Selamat Pagi" <==> 4 <= hour <= 9
    ensures g == "Selamat Siang" <==> 10 <= hour <= 14
    ensures g == "Selamat Sore" <==> 15 <= hour <= 17
    ensures g == "Selamat Malam" <==> hour <= 3 || hour >= 18
  {
    if hour >= 4 && hour < 10 then "Selamat Pagi"
    else if hour >= 10 && hour < 15 then "Selamat Siang"
    else if hour >= 15 && hour < 18 then "Selamat Sore"
    else "Selamat Malam"
  }

  /** The welcome message the chat opens with. */
  function WelcomeMessage(hour: int): ChatMessage
  {
    ChatMessage(Model, Greeting(hour) + "! Saya CASA, Asisten Cerdas CSD Online. Ada yang bisa saya bantu untuk input data pelanggan hari ini?", false, None)
  }

  // ---------------------------------------------------------------------------------------
  // The submit guard
  // ---------------------------------------------------------------------------------------

  /** The characters `String.prototype.trim` removes: JavaScript WhiteSpace and LineTerminator. */
  predicate IsJsWhitespace(c: char)
  {
    c == '\t' || c == '\n' || c == '\U{000B}' || c == '\U{000C}' || c == '\r' || c == ' ' ||
    c == '\U{00A0}' || c == '\U{1680}' || ('\U{2000}' <= c <= '\U{200A}') ||
    c == '\U{2028}' || c == '\U{2029}' || c == '\U{202F}' || c == '\U{205F}' ||
    c == '\U{3000}' || c == '\U{FEFF}'
  }

  predicate IsBlank(s: string)
  {
    forall i :: 0 <= i < |s| ==> IsJsWhitespace(s[i])
  }

  /** The input after its leading whitespace: a suffix of it that drops only whitespace. */
  function TrimStart(s: string): (r: string)
    ensures r == [] || !IsJsWhitespace(r[0])
    ensures |r| <= |s| && r == s[|s| - |r|..]
    ensures forall j :: 0 <= j < |s| - |r| ==> IsJsWhitespace(s[j])
  {
    if s != [] && IsJsWhitespace(s[0]) then TrimStart(s[1..]) else s
  }

  /** The input before its trailing whitespace: a prefix of it that drops only whitespace. */
  function TrimEnd(s: string): (r: string)
    ensures r == [] || !IsJsWhitespace(r[|r| - 1])
    ensures |r| <= |s| && r == s[..|r|]
    ensures forall j :: |r| <= j < |s| ==> IsJsWhitespace(s[j])
  {
    if s != [] && IsJsWhitespace(s[|s| - 1]) then TrimEnd(s[..|s| - 1]) else s
  }

  /** `String.prototype.trim`. */
  function Trim(s: string): string
  {
    TrimEnd(TrimStart(s))
  }

  lemma {:induction false} TrimStartEmpty(s: string)
    ensures TrimStart(s) == [] <==> IsBlank(s)
  {
    var r := TrimStart(s);
    if r != [] {
      assert r[0] == s[|s| - |r|];
    }
  }

  /** A string trims to the empty string exactly when every character is whitespace. */
  lemma TrimEmptyIffBlank(s: string)
    ensures Trim(s) == "" <==> IsBlank(s)
  {
    var t := TrimStart(s);
    TrimStartEmpty(s);
    if t != [] {
      assert TrimEnd(t) != [] by {
        if TrimEnd(t) == [] {
          assert !IsJsWhitespace(t[0]);
          TrimEndKeepsNonSpace(t);
        }
      }
    }
  }

  lemma {:induction false} TrimEndKeepsNonSpace(t: string)
    requires t != [] && !IsJsWhitespace(t[0])
    ensures TrimEnd(t) != []
  {
    if IsJsWhitespace(t[|t| - 1]) {
      assert |t| >= 2;
      TrimEndKeepsNonSpace(t[..|t| - 1]);
    }
  }

  /** The guard at the top of `handleSubmit`; the send button is disabled by the same test. */
  predicate SubmitAllowed(input: string, hasImage: bool, isLoading: bool)
  {
    !((Trim(input) == "" && !hasImage) || isLoading)
  }

  /**
   * A submission goes ahead exactly when no request is in flight and there is an image or
   * some character of the input that is not whitespace.
   */
  lemma SubmitGuard(input: string, hasImage: bool, isLoading: bool)
    ensures SubmitAllowed(input, hasImage, isLoading) <==>
      !isLoading && (hasImage || exists i :: 0 <= i < |input| && !IsJsWhitespace(input[i]))
  {
    TrimEmptyIffBlank(input);
  }

  // ---------------------------------------------------------------------------------------
  // Customer records
  // ---------------------------------------------------------------------------------------

  const SAVE_TOOL: string := "saveCustomerData"

  /** The value stored for an optional field that was not given. */
  const NO_VALUE: string := "-"

  /**
   * The arguments of a `saveCustomerData` call. An optional field is `None` when absent;
   * an empty string is given but falsy. `phoneNumber` is absent when the model leaves out
   * the field the schema requires.
   */
  datatype SaveArgs = SaveArgs(
    fullName: string,
    phoneNumber: Option<string>,
    email: Option<string>,
    companyName: Option<string>,
    address: Option<string>)

  /** A function call from the model; `ackThrows` says whether sending its response back fails. */
  datatype ToolCall = ToolCall(name: string, args: SaveArgs, ackThrows: bool)

  /** A record of the in-memory customer database. */
  datatype CustomerData = CustomerData(
    id: string,
    fullName: string,
    phoneNumber: string,
    companyName: string,
    address: string,
    email: string,
    timestamp: string)

  /** `value || '-'`: an absent or empty field is stored as `-`. */
  function OrNoValue(v: Option<string>): string
  {
    if v.Some? && v.value != "" then v.value else NO_VALUE
  }

  /** `field !== '-' ? field : undefined`: how the confirmation card shows a stored field. */
  function Shown(field: string): Option<string>
  {
    if field != NO_VALUE then Some(field) else None
  }

  /** What the confirmation card shows for an optional argument. */
  function Given(v: Option<string>): Option<string>
  {
    if v.Some? && v.value != "" && v.value != NO_VALUE then v else None
  }

  /** The record built from a save call, with id `id` and time `timestamp`. */
  function NewCustomer(id: string, timestamp: string, args: SaveArgs): (c: CustomerData)
    requires args.phoneNumber.Some?
  {
    CustomerData(id, args.fullName, FormatIndonesianPhoneNumber(args.phoneNumber.value),
      OrNoValue(args.companyName), OrNoValue(args.address), OrNoValue(args.email), timestamp)
  }

  /** The `contactData` card of the confirmation message for a record. */
  function ContactOf(c: CustomerData): ContactData
  {
    ContactData(c.fullName, Some(c.phoneNumber), Shown(c.email), Shown(c.companyName), Shown(c.address))
  }

  /**
   * A built record stores `-` for every optional field that is absent or empty, and the
   * confirmation card maps `-` back to absent: it shows the name, the normalised phone
   * number, and exactly the optional fields that were given (other than a literal `-`).
   */
  lemma NewCustomerFields(id: string, timestamp: string, args: SaveArgs)
    requires args.phoneNumber.Some?
    ensures var c := NewCustomer(id, timestamp, args);
      (c.email == NO_VALUE <==> args.email.None? || args.email.value == "" || args.email.value == NO_VALUE) &&
      (c.companyName == NO_VALUE <==> args.companyName.None? || args.companyName.value == "" || args.companyName.value == NO_VALUE) &&
      (c.address == NO_VALUE <==> args.address.None? || args.address.value == "" || args.address.value == NO_VALUE) &&
      c.phoneNumber[..3] == "+62"
    ensures ContactOf(NewCustomer(id, timestamp, args)) ==
      ContactData(args.fullName, Some(FormatIndonesianPhoneNumber(args.phoneNumber.value)),
        Given(args.email), Given(args.companyName), Given(args.address))
  {
  }

  /** `prev.filter(item => item.id !== id)`. */
  function RemoveId(db: seq<CustomerData>, id: string): (r: seq<CustomerData>)
    ensures |r| <= |db|
    ensures forall c :: c in r ==> c in db && c.id != id
  {
    if db == [] then []
    else (if db[0].id == id then [] else [db[0]]) + RemoveId(db[1..], id)
  }

  /** Every record with another id survives a delete. */
  lemma {:induction false} RemoveIdKeepsOthers(db: seq<CustomerData>, id: string, c: CustomerData)
    requires c in db && c.id != id
    ensures c in RemoveId(db, id)
  {
    if db[0] != c {
      RemoveIdKeepsOthers(db[1..], id, c);
    }
  }

  /** Deleting works piecewise, so the surviving records keep their relative order. */
  lemma {:induction false} RemoveIdAppend(a: seq<CustomerData>, b: seq<CustomerData>, id: string)
    ensures RemoveId(a + b, id) == RemoveId(a, id) + RemoveId(b, id)
  {
    if a == [] {
      assert a + b == b;
    } else {
      assert (a + b)[1..] == a[1..] + b;
      RemoveIdAppend(a[1..], b, id);
    }
  }

  /** A delete of an id no record has changes nothing. */
  lemma {:induction false} RemoveIdAbsent(db: seq<CustomerData>, id: string)
    requires forall c :: c in db ==> c.id != id
    ensures RemoveId(db, id) == db
  {
    if db != [] {
      RemoveIdAbsent(db[1..], id);
    }
  }

  /** Deleting twice is deleting once. */
  lemma RemoveIdIdempotent(db: seq<CustomerData>, id: string)
    ensures RemoveId(RemoveId(db, id), id) == RemoveId(db, id)
  {
    RemoveIdAbsent(RemoveId(db, id), id);
  }

  /**
   * Ids are clock readings and may collide: deleting the id of a record just prepended also
   * deletes every older record with the same id.
   */
  lemma DeleteNewest(c: CustomerData, db: seq<CustomerData>)
    ensures RemoveId([c] + db, c.id) == RemoveId(db, c.id)
  {
    RemoveIdAppend([c], db, c.id);
  }

  // ---------------------------------------------------------------------------------------
  // Messages and replies
  // ---------------------------------------------------------------------------------------

  const CONFIRMATION_TEXT: string :=
    "\U{00E2}\U{0153}\U{2026} Data berhasil disimpan di database aplikasi. Ada lagi yang bisa dibantu?"
  const ERROR_TEXT: string := "Maaf, terjadi gangguan koneksi. Mohon coba lagi."
  const IMAGE_FALLBACK_TEXT: string := "Gambar diproses."

  function UserMessage(text: string): ChatMessage
  {
    ChatMessage(User, text, false, None)
  }

  function ModelMessage(text: string): ChatMessage
  {
    ChatMessage(Model, text, false, None)
  }

  function ErrorMessage(): ChatMessage
  {
    ChatMessage(Model, ERROR_TEXT, true, None)
  }

  function Confirmation(c: CustomerData): ChatMessage
  {
    ChatMessage(Model, CONFIRMATION_TEXT, false, Some(ContactOf(c)))
  }

  /** Which request a submission sent: with the selected image, or through the chat. */
  datatype Mode = VisionMode | ChatMode

  /**
   * The model service's answer to a submission: a text (empty when absent) and the
   * function calls of a chat reply, or a thrown error.
   */
  datatype Reply = Replied(text: string, calls: seq<ToolCall>) | Threw

  /** The state the function-call loop of `handleSubmit` works on. */
  datatype Capture = Capture(db: seq<CustomerData>, messages: seq<ChatMessage>, showDatabase: bool, threw: bool)

  /**
   * The loop over the function calls from call `k` on. A save call with a phone number
   * prepends its record, shows the database and appends a confirmation; one without a
   * phone number throws before saving; a failing acknowledgement throws after saving.
   * A throw ends the loop.
   */
  function RunCalls(calls: seq<ToolCall>, k: nat, st: Capture, idAt: nat -> string, timeAt: nat -> string): Capture
    requires k <= |calls|
    decreases |calls| - k
  {
    if k == |calls| then st
    else
      var call := calls[k];
      if call.name != SAVE_TOOL then RunCalls(calls, k + 1, st, idAt, timeAt)
      else if call.args.phoneNumber.None? then st.(threw := true)
      else
        var c := NewCustomer(idAt(k), timeAt(k), call.args);
        var next := Capture([c] + st.db, st.messages + [Confirmation(c)], true, false);
        if call.ackThrows then next.(threw := true) else RunCalls(calls, k + 1, next, idAt, timeAt)
  }

  /** The phone number of every saved record starts with `+62`. */
  predicate Normalised(c: CustomerData)
  {
    |c.phoneNumber| >= 3 && c.phoneNumber[..3] == "+62"
  }

  /**
   * The records the function calls from call `k` on save, oldest first. Which calls save
   * does not depend on the database, so this is a reference definition independent of
   * the loop's state.
   */
  function Saved(calls: seq<ToolCall>, k: nat, idAt: nat -> string, timeAt: nat -> string): (s: seq<CustomerData>)
    requires k <= |calls|
    ensures forall c :: c in s ==> Normalised(c)
    decreases |calls| - k
  {
    if k == |calls| then []
    else if calls[k].name != SAVE_TOOL then Saved(calls, k + 1, idAt, timeAt)
    else if calls[k].args.phoneNumber.None? then []
    else
      [NewCustomer(idAt(k), timeAt(k), calls[k].args)] +
      (if calls[k].ackThrows then [] else Saved(calls, k + 1, idAt, timeAt))
  }

  /** Whether the function calls from call `k` on end in a throw. */
  predicate Fails(calls: seq<ToolCall>, k: nat)
    requires k <= |calls|
    decreases |calls| - k
  {
    if k == |calls| then false
    else if calls[k].name != SAVE_TOOL then Fails(calls, k + 1)
    else calls[k].args.phoneNumber.None? || calls[k].ackThrows || Fails(calls, k + 1)
  }

  function Reversed(s: seq<CustomerData>): (r: seq<CustomerData>)
    ensures |r| == |s|
  {
    if s == [] then [] else Reversed(s[1..]) + [s[0]]
  }

  /** One confirmation message per record, in the same order. */
  function Confirmations(s: seq<CustomerData>): (m: seq<ChatMessage>)
    ensures |m| == |s|
  {
    if s == [] then [] else [Confirmation(s[0])] + Confirmations(s[1..])
  }

  /** The database after the function calls: the saved records, newest first, then the old ones. */
  lemma {:induction false} RunCallsDb(calls: seq<ToolCall>, k: nat, st: Capture, idAt: nat -> string, timeAt: nat -> string)
    requires k <= |calls| && !st.threw
    ensures RunCalls(calls, k, st, idAt, timeAt).db == Reversed(Saved(calls, k, idAt, timeAt)) + st.db
    decreases |calls| - k
  {
    if k == |calls| {
      assert st.db == [] + st.db;
    } else if calls[k].name != SAVE_TOOL {
      RunCallsDb(calls, k + 1, st, idAt, timeAt);
    } else if calls[k].args.phoneNumber.None? {
      assert st.db == [] + st.db;
    } else {
      var c := NewCustomer(idAt(k), timeAt(k), calls[k].args);
      var next := Capture([c] + st.db, st.messages + [Confirmation(c)], true, false);
      var s := Saved(calls, k, idAt, timeAt);
      assert s[0] == c;
      if calls[k].ackThrows {
        assert s == [c];
        assert Reversed(s) == [c];
      } else {
        assert s[1..] == Saved(calls, k + 1, idAt, timeAt);
        RunCallsDb(calls, k + 1, next, idAt, timeAt);
      }
    }
  }

  /** The messages after the function calls: one confirmation per saved record, in save order. */
  lemma {:induction false} RunCallsMessages(calls: seq<ToolCall>, k: nat, st: Capture, idAt: nat -> string, timeAt: nat -> string)
    requires k <= |calls| && !st.threw
    ensures RunCalls(calls, k, st, idAt, timeAt).messages == st.messages + Confirmations(Saved(calls, k, idAt, timeAt))
    decreases |calls| - k
  {
    if k == |calls| {
      assert st.messages == st.messages + [];
    } else if calls[k].name != SAVE_TOOL {
      RunCallsMessages(calls, k + 1, st, idAt, timeAt);
    } else if calls[k].args.phoneNumber.None? {
      assert st.messages == st.messages + [];
    } else {
      var c := NewCustomer(idAt(k), timeAt(k), calls[k].args);
      var next := Capture([c] + st.db, st.messages + [Confirmation(c)], true, false);
      var s := Saved(calls, k, idAt, timeAt);
      assert s[0] == c;
      if calls[k].ackThrows {
        assert s == [c];
        assert Confirmations(s) == [Confirmation(c)];
      } else {
        assert s[1..] == Saved(calls, k + 1, idAt, timeAt);
        RunCallsMessages(calls, k + 1, next, idAt, timeAt);
      }
    }
  }

  /** The database is shown afterwards exactly when it was shown already or a record was saved. */
  lemma {:induction false} RunCallsShow(calls: seq<ToolCall>, k: nat, st: Capture, idAt: nat -> string, timeAt: nat -> string)
    requires k <= |calls| && !st.threw
    ensures RunCalls(calls, k, st, idAt, timeAt).showDatabase <==> st.showDatabase || Saved(calls, k, idAt, timeAt) != []
    decreases |calls| - k
  {
    if k < |calls| && calls[k].name != SAVE_TOOL {
      RunCallsShow(calls, k + 1, st, idAt, timeAt);
    } else if k < |calls| && calls[k].args.phoneNumber.Some? && !calls[k].ackThrows {
      var c := NewCustomer(idAt(k), timeAt(k), calls[k].args);
      RunCallsShow(calls, k + 1, Capture([c] + st.db, st.messages + [Confirmation(c)], true, false), idAt, timeAt);
    }
  }

  /** The function calls end in a throw exactly as `Fails` says. */
  lemma {:induction false} RunCallsThrew(calls: seq<ToolCall>, k: nat, st: Capture, idAt: nat -> string, timeAt: nat -> string)
    requires k <= |calls| && !st.threw
    ensures RunCalls(calls, k, st, idAt, timeAt).threw == Fails(calls, k)
    decreases |calls| - k
  {
    if k < |calls| && calls[k].name != SAVE_TOOL {
      RunCallsThrew(calls, k + 1, st, idAt, timeAt);
    } else if k < |calls| && calls[k].args.phoneNumber.Some? && !calls[k].ackThrows {
      var c := NewCustomer(idAt(k), timeAt(k), calls[k].args);
      RunCallsThrew(calls, k + 1, Capture([c] + st.db, st.messages + [Confirmation(c)], true, false), idAt, timeAt);
    }
  }

  /**
   * Processing the function calls prepends the saved records to the database, newest
   * first, with the old records in order after them; appends one confirmation per saved
   * record in the order they were saved; shows the database exactly when it was shown
   * already or some record was saved; and ends in a throw exactly as `Fails` says.
   */
  lemma RunCallsShape(calls: seq<ToolCall>, st: Capture, idAt: nat -> string, timeAt: nat -> string)
    requires !st.threw
    ensures var s := Saved(calls, 0, idAt, timeAt);
      RunCalls(calls, 0, st, idAt, timeAt) ==
        Capture(Reversed(s) + st.db, st.messages + Confirmations(s), st.showDatabase || s != [], Fails(calls, 0))
  {
    RunCallsDb(calls, 0, st, idAt, timeAt);
    RunCallsMessages(calls, 0, st, idAt, timeAt);
    RunCallsShow(calls, 0, st, idAt, timeAt);
    RunCallsThrew(calls, 0, st, idAt, timeAt);
  }

  /** One save call with a phone number prepends exactly its record and nothing else. */
  lemma SaveOnePrepends(call: ToolCall, st: Capture, idAt: nat -> string, timeAt: nat -> string)
    requires call.name == SAVE_TOOL && call.args.phoneNumber.Some?
    ensures var r := RunCalls([call], 0, st, idAt, timeAt);
      r.db == [NewCustomer(idAt(0), timeAt(0), call.args)] + st.db &&
      |r.db| == |st.db| + 1 &&
      r.messages == st.messages + [Confirmation(NewCustomer(idAt(0), timeAt(0), call.args))] &&
      r.showDatabase && r.threw == call.ackThrows
  {
  }

  // ---------------------------------------------------------------------------------------
  // The chat state
  // ---------------------------------------------------------------------------------------

  /** The state of the chat screen that the handlers change. */
  class ChatSession {
    var messages: seq<ChatMessage>
    var input: string
    var hasImage: bool              // `selectedImage !== null`
    var isLoading: bool
    var customerDb: seq<CustomerData>
    var showDatabase: bool
    var hasChat: bool               // `chatInstanceRef.current !== null`
    var pending: Option<Mode>       // the request in flight, if any

    ghost predicate Valid()
      reads this
    {
      isLoading <==> pending.Some?
    }

    /**
     * The first effect: creates the chat and posts the welcome message for the current
     * hour. When creating the chat fails, the effect stops before the welcome message.
     */
    constructor (hour: int, chatCreated: bool)
      ensures Valid()
      ensures messages == (if chatCreated then [WelcomeMessage(hour)] else [])
      ensures hasChat == chatCreated
      ensures input == "" && !hasImage && !isLoading && customerDb == [] && !showDatabase
    {
      messages := if chatCreated then [WelcomeMessage(hour)] else [];
      input := "";
      hasImage := false;
      isLoading := false;
      customerDb := [];
      showDatabase := false;
      hasChat := chatCreated;
      pending := None;
    }

    method SetInput(text: string)
      modifies this`input
      ensures input == text
    {
      input := text;
    }

    /** `handleImageSelect` with a chosen file. */
    method SelectImage()
      modifies this`hasImage
      ensures hasImage
    {
      hasImage := true;
    }

    /** `clearImage`. */
    method ClearImage()
      modifies this`hasImage
      ensures !hasImage
    {
      hasImage := false;
    }

    /** The database toggle button. */
    method ToggleDatabase()
      modifies this`showDatabase
      ensures showDatabase == !old(showDatabase)
    {
      showDatabase := !showDatabase;
    }

    /** `handleDeleteDbItem`: removes every record with this id; the others keep their order. */
    method DeleteDbItem(id: string)
      modifies this`customerDb
      ensures customerDb == RemoveId(old(customerDb), id)
      ensures forall c :: c in customerDb <==> c in old(customerDb) && c.id != id
    {
      customerDb := RemoveId(customerDb, id);
      forall c | c in old(customerDb) && c.id != id ensures c in customerDb {
        RemoveIdKeepsOthers(old(customerDb), id, c);
      }
    }

    /**
     * The synchronous start of `handleSubmit`: when the guard lets it through, appends the
     * user message, clears the input and marks the request in flight; without an image
     * and without a chat the request ends at once.
     */
    method BeginSubmit() returns (submitted: bool)
      requires Valid()
      modifies this`messages, this`input, this`isLoading, this`pending
      ensures Valid()
      ensures submitted == SubmitAllowed(old(input), hasImage, old(isLoading))
      ensures !submitted ==> (messages == old(messages) && input == old(input) &&
        isLoading == old(isLoading) && pending == old(pending))
      ensures submitted ==> messages == old(messages) + [UserMessage(old(input))] && input == ""
      ensures submitted ==> pending == (if hasImage then Some(VisionMode) else if hasChat then Some(ChatMode) else None)
    {
      submitted := SubmitAllowed(input, hasImage, isLoading);
      if !submitted {
        return;
      }
      messages := messages + [UserMessage(input)];
      input := "";
      isLoading := true;
      if hasImage {
        pending := Some(VisionMode);
      } else if hasChat {
        pending := Some(ChatMode);
      } else {
        isLoading := false;
        pending := None;
      }
    }

    /**
     * The rest of `handleSubmit`, once the model service has answered with `reply`; the
     * record of the k-th function call gets id `idAt(k)` and time `timeAt(k)`. Nothing
     * happens when no request is in flight.
     */
    method CompleteSubmit(reply: Reply, idAt: nat -> string, timeAt: nat -> string)
      requires Valid()
      modifies this`messages, this`hasImage, this`isLoading, this`customerDb, this`showDatabase, this`pending
      ensures Valid() && !isLoading
      ensures old(pending).None? ==>
        messages == old(messages) && hasImage == old(hasImage) && customerDb == old(customerDb) &&
        showDatabase == old(showDatabase)
      ensures old(pending) == Some(VisionMode) ==>
        !hasImage && customerDb == old(customerDb) && showDatabase == old(showDatabase) &&
        messages == old(messages) + [
          if reply.Threw? then ErrorMessage()
          else ModelMessage(if reply.text != "" then reply.text else IMAGE_FALLBACK_TEXT)]
      ensures old(pending) == Some(ChatMode) && (reply.Threw? || reply.calls == []) ==>
        hasImage == old(hasImage) && customerDb == old(customerDb) && showDatabase == old(showDatabase) &&
        messages == old(messages) + [if reply.Threw? then ErrorMessage() else ModelMessage(reply.text)]
      ensures old(pending) == Some(ChatMode) && reply.Replied? && reply.calls != [] ==>
        var r := RunCalls(reply.calls, 0, Capture(old(customerDb), old(messages), old(showDatabase), false), idAt, timeAt);
        hasImage == old(hasImage) && customerDb == r.db && showDatabase == r.showDatabase &&
        messages == r.messages + (if r.threw then [ErrorMessage()] else [])
    {
      if pending.None? {
        return;
      }
      if pending == Some(VisionMode) {
        hasImage := false;
        if reply.Threw? {
          messages := messages + [ErrorMessage()];
        } else {
          messages := messages + [ModelMessage(if reply.text != "" then reply.text else IMAGE_FALLBACK_TEXT)];
        }
      } else if reply.Threw? {
        messages := messages + [ErrorMessage()];
      } else if reply.calls == [] {
        messages := messages + [ModelMessage(reply.text)];
      } else {
        var threw := SaveCalls(reply.calls, idAt, timeAt);
        if threw {
          messages := messages + [ErrorMessage()];
        }
      }
      isLoading := false;
      pending := None;
    }

    /** The `for` loop over the reply's function calls; reports whether it ended by a throw. */
    method SaveCalls(calls: seq<ToolCall>, idAt: nat -> string, timeAt: nat -> string) returns (threw: bool)
      modifies this`messages, this`customerDb, this`showDatabase
      ensures var r := RunCalls(calls, 0, Capture(old(customerDb), old(messages), old(showDatabase), false), idAt, timeAt);
        customerDb == r.db && messages == r.messages && showDatabase == r.showDatabase && threw == r.threw
    {
      ghost var start := Capture(customerDb, messages, showDatabase, false);
      threw := false;
      var k := 0;
      while k < |calls| && !threw
        invariant 0 <= k <= |calls|
        invariant !threw ==> (RunCalls(calls, 0, start, idAt, timeAt) ==
          RunCalls(calls, k, Capture(customerDb, messages, showDatabase, false), idAt, timeAt))
        invariant threw ==> (RunCalls(calls, 0, start, idAt, timeAt) ==
          Capture(customerDb, messages, showDatabase, true))
        decreases |calls| - k
      {
        var call := calls[k];
        if call.name == SAVE_TOOL {
          if call.args.phoneNumber.None? {
            // normalising an undefined phone number throws a TypeError
            threw := true;
          } else {
            var newCustomer := NewCustomer(idAt(k), timeAt(k), call.args);
            customerDb := [newCustomer] + customerDb;
            showDatabase := true;
            messages := messages + [Confirmation(newCustomer)];
            if call.ackThrows {
              threw := true;
            }
          }
        }
        k := k + 1;
      }
    }
  }
}
