/** The installer's form: five screens driven by keys, the checks that let an operator
    pass from one to the next, and what a confirmed form therefore holds. */
module Installers {
  import opened Config

  const U32_RANGE: nat := 0x1_0000_0000
  const MIB: nat := 1_048_576

  datatype Device = Device(path: string, sizeBytes: nat, removable: bool)

  datatype Code = Char(c: char) | Enter | Esc | Tab | BackTab | Up | Down | Left | Backspace | F(n: nat) | OtherKey

  datatype Key = Key(code: Code, control: bool)

  datatype Screen = DeviceSelect | Partition | User | Keyboard | Summary

  datatype Outcome = Confirmed | Cancelled

  datatype FormError =
    | NotRemovable | BadEsp | BadRoot | RootTooLarge
    | BadUserName | BadUserNameChars | ShortPassword | PasswordMismatch
    | NoLayout | BadLayout | BadVariant

  datatype Form = Form(
    screen: Screen, outcome: Option<Outcome>, error: Option<FormError>,
    devices: seq<Device>, deviceIdx: nat,
    partitionFocus: nat, esp: string, root: string,
    userFocus: nat, name: string, realName: string, password: string, confirm: string, showPasswords: bool,
    keyboardFocus: nat, layout: string, variant: string)

  // ---------- Text ----------

  function Utf8Width(c: char): nat {
    if c < '\U{0080}' then 1 else if c < '\U{0800}' then 2 else if c < '\U{10000}' then 3 else 4
  }

  /** `str::len`, in bytes. */
  function ByteLength(s: string): nat {
    if s == [] then 0 else Utf8Width(s[0]) + ByteLength(s[1..])
  }

  /** `String::pop` */
  function Pop(s: string): string {
    if s == [] then s else s[..|s| - 1]
  }

  predicate IsNameChar(c: char) {
    'a' <= c <= 'z' || '0' <= c <= '9' || c == '_'
  }

  predicate AllNameChars(s: string) {
    forall c :: c in s ==> IsNameChar(c)
  }

  predicate ValidKeymap(s: string) {
    s != [] && AllNameChars(s)
  }

  // ---------- The checks ----------

  function ParseU32(s: string): Option<nat> {
    ParseUnsigned(Trim(s), U32_RANGE)
  }

  /** `(size_bytes / 1_048_576) as u32` */
  function DiskMib(d: Device): nat {
    (d.sizeBytes / MIB) % U32_RANGE
  }

  function MaxRootGib(d: Device, esp: nat): nat {
    (if DiskMib(d) < esp + 8 then 0 else DiskMib(d) - (esp + 8)) / 1024
  }

  function CheckPartition(d: Device, esp: string, root: string): Option<FormError> {
    var e := ParseU32(esp);
    if e.None? || !(64 <= e.value <= 8192) then Some(BadEsp)
    else
      match ParseU32(root)
      case None => Some(BadRoot)
      case Some(r) => if r != 0 && r > MaxRootGib(d, e.value) then Some(RootTooLarge) else None
  }

  function CheckUser(name: string, password: string, confirm: string): Option<FormError> {
    if name == [] || name == "root" then Some(BadUserName)
    else if !AllNameChars(name) then Some(BadUserNameChars)
    else if ByteLength(password) < 6 then Some(ShortPassword)
    else if password != confirm then Some(PasswordMismatch)
    else None
  }

  function CheckKeyboard(layout: string, variant: string): Option<FormError> {
    if layout == [] then Some(NoLayout)
    else if !ValidKeymap(layout) then Some(BadLayout)
    else if variant != [] && !ValidKeymap(variant) then Some(BadVariant)
    else None
  }

  // ---------- What a key does ----------

  function Advance(f: Form, failed: Option<FormError>, next: Screen): Form {
    if failed.Some? then f.(error := failed) else f.(screen := next)
  }

  function PressDevices(f: Form, k: Code): Form
    requires f.deviceIdx < |f.devices|
  {
    if k == Up || k == Char('k') then
      if f.deviceIdx > 0 then f.(deviceIdx := f.deviceIdx - 1) else f
    else if k == Down || k == Char('j') then
      if f.deviceIdx + 1 < |f.devices| then f.(deviceIdx := f.deviceIdx + 1) else f
    else if k == Enter then
      Advance(f, if f.devices[f.deviceIdx].removable then None else Some(NotRemovable), Partition)
    else f
  }

  function EditPartition(f: Form, text: string): Form {
    if f.partitionFocus == 0 then f.(esp := text) else f.(root := text)
  }

  function PressPartition(f: Form, k: Code): Form
    requires f.deviceIdx < |f.devices|
  {
    var buf := if f.partitionFocus == 0 then f.esp else f.root;
    match k
    case Tab => f.(partitionFocus := (f.partitionFocus + 1) % 2)
    case Down => f.(partitionFocus := (f.partitionFocus + 1) % 2)
    case BackTab => f.(partitionFocus := (f.partitionFocus + 1) % 2)
    case Up => f.(partitionFocus := (f.partitionFocus + 1) % 2)
    case Char(c) => if IsDigit(c) && ByteLength(buf) < 10 then EditPartition(f, buf + [c]) else f
    case Backspace => EditPartition(f, Pop(buf))
    case Enter => Advance(f, CheckPartition(f.devices[f.deviceIdx], f.esp, f.root), User)
    case Left => f.(screen := DeviceSelect)
    case _ => f
  }

  function UserField(f: Form): string {
    if f.userFocus == 0 then f.name else if f.userFocus == 1 then f.realName else if f.userFocus == 2 then f.password else f.confirm
  }

  function EditUser(f: Form, text: string): Form {
    if f.userFocus == 0 then f.(name := text) else if f.userFocus == 1 then f.(realName := text)
    else if f.userFocus == 2 then f.(password := text) else f.(confirm := text)
  }

  function PressUser(f: Form, k: Code): Form {
    match k
    case F(n) => if n == 2 then f.(showPasswords := !f.showPasswords) else f
    case Tab => f.(userFocus := (f.userFocus + 1) % 4)
    case Down => f.(userFocus := (f.userFocus + 1) % 4)
    case BackTab => f.(userFocus := (f.userFocus + 3) % 4)
    case Up => f.(userFocus := (f.userFocus + 3) % 4)
    case Left => f.(screen := Partition)
    case Enter => Advance(f, CheckUser(f.name, f.password, f.confirm), Keyboard)
    case Char(c) => EditUser(f, UserField(f) + [c])
    case Backspace => EditUser(f, Pop(UserField(f)))
    case _ => f
  }

  function EditKeyboard(f: Form, text: string): Form {
    if f.keyboardFocus == 0 then f.(layout := text) else f.(variant := text)
  }

  function PressKeyboard(f: Form, k: Code): Form {
    var buf := if f.keyboardFocus == 0 then f.layout else f.variant;
    match k
    case Tab => f.(keyboardFocus := (f.keyboardFocus + 1) % 2)
    case Down => f.(keyboardFocus := (f.keyboardFocus + 1) % 2)
    case BackTab => f.(keyboardFocus := (f.keyboardFocus + 1) % 2)
    case Up => f.(keyboardFocus := (f.keyboardFocus + 1) % 2)
    case Left => f.(screen := User)
    case Enter => Advance(f, CheckKeyboard(f.layout, f.variant), Summary)
    case Char(c) => EditKeyboard(f, buf + [c])
    case Backspace => EditKeyboard(f, Pop(buf))
    case _ => f
  }

  function PressSummary(f: Form, k: Code): Form {
    match k
    case Enter => f.(outcome := Some(Confirmed))
    case Left => f.(screen := Keyboard)
    case Backspace => f.(screen := Keyboard)
    case _ => f
  }

  /** `handle_key` */
  function Press(f: Form, key: Key): Form
    requires f.deviceIdx < |f.devices|
  {
    if key.code == Esc || (key.code == Char('c') && key.control) then f.(outcome := Some(Cancelled))
    else
      var g := f.(error := None);
      match f.screen
      case DeviceSelect => PressDevices(g, key.code)
      case Partition => PressPartition(g, key.code)
      case User => PressUser(g, key.code)
      case Keyboard => PressKeyboard(g, key.code)
      case Summary => PressSummary(g, key.code)
  }

  /** The event loop: it stops at the first key that gives the form an outcome. */
  ghost function Feed(f: Form, keys: seq<Key>): Form
    requires InRange(f)
    decreases |keys|
  {
    if keys == [] || f.outcome.Some? then f
    else
      PressInRange(f, keys[0]);
      Feed(Press(f, keys[0]), keys[1..])
  }

  ghost predicate InRange(f: Form) {
    f.deviceIdx < |f.devices| && f.partitionFocus < 2 && f.userFocus < 4 && f.keyboardFocus < 2
  }

  lemma DevicesInRange(f: Form, k: Code)
    requires InRange(f)
    ensures InRange(PressDevices(f, k)) && PressDevices(f, k).devices == f.devices
  {
  }

  lemma PartitionInRange(f: Form, k: Code)
    requires InRange(f)
    ensures InRange(PressPartition(f, k)) && PressPartition(f, k).devices == f.devices
  {
    hide CheckPartition, ByteLength, Pop;
  }

  lemma UserInRange(f: Form, k: Code)
    requires InRange(f)
    ensures InRange(PressUser(f, k)) && PressUser(f, k).devices == f.devices
  {
    hide CheckUser, Pop;
  }

  lemma KeyboardInRange(f: Form, k: Code)
    requires InRange(f)
    ensures InRange(PressKeyboard(f, k)) && PressKeyboard(f, k).devices == f.devices
  {
    hide CheckKeyboard, Pop;
  }

  lemma PressInRange(f: Form, key: Key)
    requires InRange(f)
    ensures InRange(Press(f, key)) && Press(f, key).devices == f.devices
  {
    hide PressDevices, PressPartition, PressUser, PressKeyboard;
    var g := f.(error := None);
    DevicesInRange(g, key.code);
    PartitionInRange(g, key.code);
    UserInRange(g, key.code);
    KeyboardInRange(g, key.code);
  }

  // ---------- What holds at every key ----------

  function Chosen(f: Form): Device
    requires f.deviceIdx < |f.devices|
  {
    f.devices[f.deviceIdx]
  }

  function Rank(s: Screen): nat {
    match s case DeviceSelect => 0 case Partition => 1 case User => 2 case Keyboard => 3 case Summary => 4
  }

  /** Everything asked on the screens before the current one has passed its check, for
      the contents and the device the form holds now. */
  ghost predicate ValidSoFar(f: Form) {
    && InRange(f)
    && (Rank(f.screen) > 0 ==> Chosen(f).removable)
    && (Rank(f.screen) > 1 ==> CheckPartition(Chosen(f), f.esp, f.root).None?)
    && (Rank(f.screen) > 2 ==> CheckUser(f.name, f.password, f.confirm).None?)
    && (Rank(f.screen) > 3 ==> CheckKeyboard(f.layout, f.variant).None?)
    && (f.outcome == Some(Confirmed) ==> f.screen == Summary)
  }

  lemma DevicesKeepValid(f: Form, k: Code)
    requires ValidSoFar(f) && f.outcome.None? && f.screen == DeviceSelect
    ensures ValidSoFar(PressDevices(f, k))
  {
  }

  lemma PartitionKeepsValid(f: Form, k: Code)
    requires ValidSoFar(f) && f.outcome.None? && f.screen == Partition
    ensures ValidSoFar(PressPartition(f, k))
  {
    hide CheckPartition, CheckUser, CheckKeyboard, ByteLength, Pop;
  }

  lemma UserKeepsValid(f: Form, k: Code)
    requires ValidSoFar(f) && f.outcome.None? && f.screen == User
    ensures ValidSoFar(PressUser(f, k))
  {
    hide CheckPartition, CheckUser, CheckKeyboard, Pop;
  }

  lemma KeyboardKeepsValid(f: Form, k: Code)
    requires ValidSoFar(f) && f.outcome.None? && f.screen == Keyboard
    ensures ValidSoFar(PressKeyboard(f, k))
  {
    hide CheckPartition, CheckUser, CheckKeyboard, Pop;
  }

  lemma PressKeepsValid(f: Form, key: Key)
    requires ValidSoFar(f) && f.outcome.None?
    ensures ValidSoFar(Press(f, key))
  {
    hide CheckPartition, CheckUser, CheckKeyboard, PressDevices, PressPartition, PressUser, PressKeyboard;
    var g := f.(error := None);
    match f.screen
    case DeviceSelect => DevicesKeepValid(g, key.code);
    case Partition => PartitionKeepsValid(g, key.code);
    case User => UserKeepsValid(g, key.code);
    case Keyboard => KeyboardKeepsValid(g, key.code);
    case Summary =>
  }

  lemma {:induction false} FeedKeepsValid(f: Form, keys: seq<Key>)
    requires ValidSoFar(f)
    ensures ValidSoFar(Feed(f, keys)) && Feed(f, keys).devices == f.devices
    decreases |keys|
  {
    hide Press;
    if keys != [] && f.outcome.None? {
      PressInRange(f, keys[0]);
      PressKeepsValid(f, keys[0]);
      FeedKeepsValid(Press(f, keys[0]), keys[1..]);
    }
  }

  // ---------- From the form to the plan ----------

  datatype Spec = Spec(espMib: Option<nat>, rootGib: Option<nat>, name: Option<string>, realName: Option<string>, layout: Option<string>, variant: Option<string>)

  function OrElse<T>(o: Option<T>, default: T): T {
    if o.Some? then o.value else default
  }

  /** `App::new` */
  function NewForm(spec: Spec, devices: seq<Device>): Form {
    Form(DeviceSelect, None, None, devices, 0,
      0, if spec.espMib.Some? then Decimal(spec.espMib.value) else "512", if spec.rootGib.Some? then Decimal(spec.rootGib.value) else "0",
      0, OrElse(spec.name, ""), OrElse(spec.realName, ""), "", "", false,
      0, OrElse(spec.layout, "us"), OrElse(spec.variant, ""))
  }

  datatype Plan = Plan(espMib: nat, rootGib: Option<nat>, name: string, realName: string, layout: string, variant: Option<string>)

  /** `build_plan`, up to the password hash; None when a number does not parse. */
  function BuildPlan(f: Form): Option<Plan> {
    var esp, root := ParseU32(f.esp), ParseU32(f.root);
    if esp.None? || root.None? then None
    else
      Some(Plan(esp.value, if root.value == 0 then None else root, f.name, f.realName, f.layout, if f.variant == [] then None else Some(f.variant)))
  }

  /** The partitions of the plan fit on the disk, eight spare MiB included. */
  ghost predicate Fits(p: Plan, d: Device) {
    p.rootGib.Some? ==> p.rootGib.value > 0 && p.espMib + 8 + 1024 * p.rootGib.value <= d.sizeBytes / MIB
  }

  /** The plan asks for what the form shows: the name and the real name each in its place,
      a variant exactly when one was entered, a root size exactly when it is not zero. */
  ghost predicate PlanSays(p: Plan, f: Form) {
    && p.name == f.name && p.realName == f.realName && p.layout == f.layout
    && p.variant == (if f.variant == [] then None else Some(f.variant))
    && ParseU32(f.esp) == Some(p.espMib)
    && ParseU32(f.root) == (if p.rootGib.Some? then p.rootGib else Some(0)) && p.rootGib != Some(0)
  }

  /** A plan that may be carried out: a sane partition that fits on a removable device, a
      user who may log in and a usable keymap. */
  ghost predicate PlanIsSafe(p: Plan, d: Device) {
    && d.removable && 64 <= p.espMib <= 8192 && Fits(p, d)
    && p.name != [] && p.name != "root" && AllNameChars(p.name)
    && ValidKeymap(p.layout) && (p.variant.Some? ==> ValidKeymap(p.variant.value))
  }

  /** A passed check means numbers that parse, in range, and a root that fits, although
      the disk size was truncated to 32 bits; and the plan keeps both numbers. */
  lemma CheckedPartitionFits(f: Form)
    requires InRange(f) && CheckPartition(Chosen(f), f.esp, f.root).None?
    ensures var p := BuildPlan(f); p.Some? && 64 <= p.value.espMib <= 8192 && Fits(p.value, Chosen(f)) && PlanSays(p.value, f)
  {
    hide ParseUnsigned, Trim;
    var d := Chosen(f);
    var esp := ParseU32(f.esp).value;
    var root := ParseU32(f.root).value;
    assert DiskMib(d) <= d.sizeBytes / MIB;
    if root != 0 {
      assert 1024 * MaxRootGib(d, esp) <= if DiskMib(d) < esp + 8 then 0 else DiskMib(d) - (esp + 8);
    }
  }

  /** The plan of a confirmed form exists, asks for what the form shows, and is safe. */
  lemma ConfirmedPlan(f: Form)
    requires ValidSoFar(f) && f.outcome == Some(Confirmed)
    ensures InRange(f) && BuildPlan(f).Some? && PlanSays(BuildPlan(f).value, f) && PlanIsSafe(BuildPlan(f).value, Chosen(f))
  {
    hide CheckPartition, BuildPlan, Fits, ParseU32;
    CheckedPartitionFits(f);
  }

  /** Whatever keys are pressed, a form is only ever confirmed with a removable device, a
      sane partition that fits on it, a user who may log in and a usable keymap; building
      the plan from it cannot fail, and the plan says the same. */
  lemma ConfirmedFormIsSafe(spec: Spec, devices: seq<Device>, keys: seq<Key>)
    requires devices != []
    ensures InRange(NewForm(spec, devices))
    ensures var f := Feed(NewForm(spec, devices), keys);
      f.outcome == Some(Confirmed) ==>
        && InRange(f) && f.devices == devices && Chosen(f).removable
        && (var p := BuildPlan(f); p.Some? && PlanSays(p.value, f) && PlanIsSafe(p.value, Chosen(f)))
        && f.name != [] && f.name != "root" && AllNameChars(f.name)
        && f.password == f.confirm && ByteLength(f.password) >= 6
        && ValidKeymap(f.layout) && (f.variant == [] || ValidKeymap(f.variant))
  {
    hide Feed, Press, CheckPartition, BuildPlan, Fits, PlanSays, PlanIsSafe;
    var f0 := NewForm(spec, devices);
    FeedKeepsValid(f0, keys);
    var f := Feed(f0, keys);
    if f.outcome == Some(Confirmed) { ConfirmedPlan(f); }
  }

  /** The check of an explicit root size accepts it exactly when it fits the size modulo
      2^32 MiB: on disks below 4 PiB that is exactly when it fits. */
  lemma RootAcceptedIff(d: Device, esp: string, root: string, e: nat, r: nat)
    requires ParseU32(esp) == Some(e) && 64 <= e <= 8192 && ParseU32(root) == Some(r) && r > 0
    ensures CheckPartition(d, esp, root).None? <==> e + 8 + 1024 * r <= (d.sizeBytes / MIB) % U32_RANGE
    ensures d.sizeBytes / MIB < U32_RANGE ==> (CheckPartition(d, esp, root).None? <==> e + 8 + 1024 * r <= d.sizeBytes / MIB)
  {
    hide ParseUnsigned, Trim;
  }

  /** Enter moves on from a screen whose check passes. */
  function Onward(f: Form): Form {
    match f.screen
    case DeviceSelect => f.(screen := Partition, error := None)
    case Partition => f.(screen := User, error := None)
    case User => f.(screen := Keyboard, error := None)
    case Keyboard => f.(screen := Summary, error := None)
    case Summary => f.(outcome := Some(Confirmed), error := None)
  }

  ghost predicate AllPass(f: Form) {
    && InRange(f) && f.outcome.None? && Chosen(f).removable
    && CheckPartition(Chosen(f), f.esp, f.root).None? && CheckUser(f.name, f.password, f.confirm).None? && CheckKeyboard(f.layout, f.variant).None?
  }

  lemma EnterMovesOn(f: Form, rest: seq<Key>)
    requires AllPass(f)
    ensures InRange(f) && InRange(Onward(f)) && (f.screen != Summary ==> AllPass(Onward(f)))
    ensures Feed(f, [Key(Enter, false)] + rest) == Feed(Onward(f), rest)
  {
    hide CheckPartition, CheckUser, CheckKeyboard;
    var keys := [Key(Enter, false)] + rest;
    assert keys[1..] == rest;
    assert Press(f, keys[0]) == Onward(f);
  }

  /** Nothing valid is kept out: a form whose contents pass the checks is confirmed by
      Enter on each screen. */
  lemma ValidFormCanBeConfirmed(f: Form)
    requires AllPass(f) && f.screen == DeviceSelect
    ensures InRange(f)
    ensures var e := Key(Enter, false);
      Feed(f, [e] + ([e] + ([e] + ([e] + ([e] + []))))) == f.(screen := Summary, error := None, outcome := Some(Confirmed))
  {
    hide CheckPartition, CheckUser, CheckKeyboard, Feed, Press;
    var e := Key(Enter, false);
    var f1, f2 := Onward(f), Onward(Onward(f));
    EnterMovesOn(f, [e] + ([e] + ([e] + ([e] + []))));
    EnterMovesOn(f1, [e] + ([e] + ([e] + [])));
    EnterMovesOn(f2, [e] + ([e] + []));
    EnterMovesOn(Onward(f2), [e] + []);
    EnterMovesOn(Onward(Onward(f2)), []);
    FeedEnds(Onward(Onward(Onward(f2))));
  }

  lemma FeedEnds(f: Form)
    requires InRange(f)
    ensures Feed(f, []) == f
  {
  }

  // ---------- What the form shows ----------

  /** A number that was put into a field is read back from it. */
  lemma NumberReadBack(n: nat)
    requires n < U32_RANGE
    ensures ParseU32(Decimal(n)) == Some(n)
  {
    var d := Decimal(n);
    assert d + Suffix(Bare) == d;
    NumberIsTrimmed(d, Bare);
    assert d[0] in d;
  }

  /** A new form shows the spec, and where the spec is silent 512 MiB for the EFI system
      partition, the rest of the disk for the root, and the "us" layout. */
  lemma NewFormShows(spec: Spec, devices: seq<Device>)
    requires (spec.espMib.Some? ==> spec.espMib.value < U32_RANGE) && (spec.rootGib.Some? ==> spec.rootGib.value < U32_RANGE)
    ensures var f := NewForm(spec, devices);
      && ParseU32(f.esp) == Some(if spec.espMib.Some? then spec.espMib.value else 512)
      && ParseU32(f.root) == Some(if spec.rootGib.Some? then spec.rootGib.value else 0)
      && (spec.name.Some? ==> f.name == spec.name.value) && (spec.realName.Some? ==> f.realName == spec.realName.value)
      && (if spec.layout.Some? then f.layout == spec.layout.value else f.layout == "us")
      && (spec.variant.Some? ==> f.variant == spec.variant.value) && (spec.variant.None? ==> f.variant == "")
  {
    hide ParseU32;
    NumberReadBack(if spec.espMib.Some? then spec.espMib.value else 512);
    NumberReadBack(if spec.rootGib.Some? then spec.rootGib.value else 0);
    DecimalDigits(512, "512");
    DecimalDigits(0, "0");
  }

  /** Digits without a leading zero are the decimal form of their value. */
  lemma {:induction false} DecimalDigits(n: nat, s: string)
    requires s != [] && (forall c :: c in s ==> IsDigit(c)) && DigitsValue(s) == n && (|s| > 1 ==> s[0] != '0')
    ensures Decimal(n) == s
  {
    var last := s[|s| - 1];
    assert last in s;
    assert s == s[..|s| - 1] + [last];
    if |s| > 1 {
      LeadingDigit(s[..|s| - 1]);
      DecimalDigits(n / 10, s[..|s| - 1]);
    } else {
      assert s[..0] == [];
    }
  }

  lemma {:induction false} LeadingDigit(s: string)
    requires s != [] && (forall c :: c in s ==> IsDigit(c)) && s[0] != '0'
    ensures DigitsValue(s) > 0
  {
    assert s[|s| - 1] in s;
    if |s| > 1 { LeadingDigit(s[..|s| - 1]); } else { assert s[..0] == []; }
  }

  // ---------- Typing ----------

  predicate TakesText(s: Screen) {
    s == Partition || s == User || s == Keyboard
  }

  function Fields(f: Form): seq<string> {
    [f.esp, f.root, f.name, f.realName, f.password, f.confirm, f.layout, f.variant]
  }

  function FocusIndex(f: Form): nat {
    match f.screen
    case Partition => f.partitionFocus
    case User => 2 + f.userFocus
    case Keyboard => 6 + f.keyboardFocus
    case _ => 8
  }

  /** A character typed goes to the end of the field with the focus and nowhere else; only
      the number fields refuse some: what is no digit, and an eleventh one. */
  lemma TypedGoesToFocus(f: Form, c: char)
    requires InRange(f) && TakesText(f.screen) && f.outcome.None?
    ensures var g, i := Press(f, Key(Char(c), false)), FocusIndex(f);
      && g.screen == f.screen && FocusIndex(g) == i < 8 && g.error.None? && g.outcome.None?
      && (f.screen != Partition || (IsDigit(c) && ByteLength(Fields(f)[i]) < 10) ==> Fields(g) == Fields(f)[i := Fields(f)[i] + [c]])
      && (f.screen == Partition && !(IsDigit(c) && ByteLength(Fields(f)[i]) < 10) ==> Fields(g) == Fields(f))
  {
    hide CheckPartition, CheckUser, CheckKeyboard, ByteLength;
  }

  /** Backspace takes the last character typed back. */
  lemma EraseUndoesTyping(f: Form, c: char)
    requires InRange(f) && TakesText(f.screen) && f.outcome.None?
    requires f.screen == Partition ==> IsDigit(c) && ByteLength(Fields(f)[f.partitionFocus]) < 10
    ensures InRange(Press(f, Key(Char(c), false)))
    ensures Press(Press(f, Key(Char(c), false)), Key(Backspace, false)) == f.(error := None)
  {
    hide CheckPartition, CheckUser, CheckKeyboard, ByteLength;
    PopUndoes(Fields(f)[FocusIndex(f)], c);
  }

  lemma PopUndoes(s: string, c: char)
    ensures Pop(s + [c]) == s
  {
    assert (s + [c])[..|s|] == s;
  }

  function FieldCount(s: Screen): nat {
    match s case Partition => 2 case User => 4 case Keyboard => 2 case _ => 0
  }

  /** Tab moves the focus to the next field in turn, and BackTab back. */
  lemma TabMovesFocus(f: Form)
    requires InRange(f) && TakesText(f.screen) && f.outcome.None?
    ensures var g, first := Press(f, Key(Tab, false)), FocusIndex(f.(partitionFocus := 0, userFocus := 0, keyboardFocus := 0));
      && Fields(g) == Fields(f) && g.screen == f.screen && InRange(g)
      && FocusIndex(g) == (if FocusIndex(f) + 1 < first + FieldCount(f.screen) then FocusIndex(f) + 1 else first)
      && Press(g, Key(BackTab, false)) == f.(error := None)
  {
    hide CheckPartition, CheckUser, CheckKeyboard, ByteLength;
  }

  // ---------- What is accepted ----------

  /** The checks accept exactly this. */
  lemma ChecksAcceptIff(d: Device, esp: string, root: string, name: string, password: string, confirm: string, layout: string, variant: string)
    ensures CheckPartition(d, esp, root).None? <==>
      && ParseU32(esp).Some? && 64 <= ParseU32(esp).value <= 8192 && ParseU32(root).Some?
      && (ParseU32(root).value > 0 ==> ParseU32(esp).value + 8 + 1024 * ParseU32(root).value <= (d.sizeBytes / MIB) % U32_RANGE)
    ensures CheckUser(name, password, confirm).None? <==>
      name != "" && name != "root" && AllNameChars(name) && ByteLength(password) >= 6 && password == confirm
    ensures CheckKeyboard(layout, variant).None? <==>
      layout != "" && AllNameChars(layout) && AllNameChars(variant)
  {
    hide ParseU32, ByteLength;
    var e, r := ParseU32(esp), ParseU32(root);
    if e.Some? && 64 <= e.value <= 8192 && r.Some? && r.value > 0 {
      var left := if DiskMib(d) < e.value + 8 then 0 else DiskMib(d) - (e.value + 8);
      assert MaxRootGib(d, e.value) == left / 1024;
      assert r.value <= left / 1024 <==> 1024 * r.value <= left;
    }
  }

  predicate IsIn(text: string, low: nat, high: nat) {
    ParseU32(text).Some? && low <= ParseU32(text).value <= high
  }

  /** And what they object to is really so. */
  lemma ErrorsAreTrue(d: Device, esp: string, root: string, name: string, password: string, confirm: string, layout: string, variant: string)
    ensures var e := CheckPartition(d, esp, root);
      && (e.None? || e.value == BadEsp || e.value == BadRoot || e.value == RootTooLarge)
      && (e == Some(BadEsp) ==> !IsIn(esp, 64, 8192)) && (e == Some(BadRoot) ==> ParseU32(root).None?)
      && (e == Some(RootTooLarge) ==> IsIn(esp, 64, 8192) && !IsIn(root, 0, MaxRootGib(d, ParseU32(esp).value)))
    ensures var e := CheckUser(name, password, confirm);
      && (e.None? || e.value == BadUserName || e.value == BadUserNameChars || e.value == ShortPassword || e.value == PasswordMismatch)
      && (e == Some(BadUserName) ==> name == "" || name == "root") && (e == Some(BadUserNameChars) ==> !AllNameChars(name))
      && (e == Some(ShortPassword) ==> ByteLength(password) < 6) && (e == Some(PasswordMismatch) ==> password != confirm)
    ensures var e := CheckKeyboard(layout, variant);
      && (e.None? || e.value == NoLayout || e.value == BadLayout || e.value == BadVariant)
      && (e == Some(NoLayout) ==> layout == "") && (e == Some(BadLayout) ==> !AllNameChars(layout)) && (e == Some(BadVariant) ==> !AllNameChars(variant))
  {
    hide ParseU32, ByteLength, AllNameChars, MaxRootGib;
  }

  // ---------- Moving about ----------

  /** Esc and Control-C cancel on every screen. */
  lemma EscapeCancels(f: Form, key: Key)
    requires InRange(f) && (key.code == Esc || (key.code == Char('c') && key.control))
    ensures Press(f, key) == f.(outcome := Some(Cancelled))
  {
    hide CheckPartition, CheckUser, CheckKeyboard;
  }

  /** Left goes back one screen and keeps what was entered. */
  lemma LeftGoesBack(f: Form)
    requires InRange(f) && f.screen != DeviceSelect && f.outcome.None?
    ensures var g := Press(f, Key(Left, false));
      Rank(g.screen) + 1 == Rank(f.screen) && g == f.(screen := g.screen, error := None)
  {
    hide CheckPartition, CheckUser, CheckKeyboard;
  }

  /** Down chooses the next device and Up the one before; the ends of the list stay put. */
  lemma ArrowsChoose(f: Form)
    requires InRange(f) && f.screen == DeviceSelect && f.outcome.None?
    ensures var down, up := Press(f, Key(Down, false)), Press(f, Key(Up, false));
      && down == f.(error := None, deviceIdx := if f.deviceIdx + 1 < |f.devices| then f.deviceIdx + 1 else f.deviceIdx)
      && up == f.(error := None, deviceIdx := if f.deviceIdx > 0 then f.deviceIdx - 1 else 0)
      && InRange(down) && (f.deviceIdx + 1 < |f.devices| ==> Press(down, Key(Up, false)) == f.(error := None))
  {
    hide CheckPartition, CheckUser, CheckKeyboard;
  }
}
