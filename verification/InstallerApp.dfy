/** The installer's form as an object whose key handlers edit it in place. */
module InstallerApps {
  import opened Config
  import opened Installers

  class App {
    var screen: Screen
    var outcome: Option<Outcome>
    var error: Option<FormError>
    const devices: seq<Device>
    var deviceIdx: nat
    var partitionFocus: nat
    var espMibInput: string
    var rootGibInput: string
    var userFocus: nat
    var userName: string
    var userRealName: string
    var userPassword: string
    var userPasswordConfirm: string
    var showPasswords: bool
    var keyboardFocus: nat
    var kbLayout: string
    var kbVariant: string

    function Abs(): Form
      reads this
    {
      Form(screen, outcome, error, devices, deviceIdx, partitionFocus, espMibInput, rootGibInput,
        userFocus, userName, userRealName, userPassword, userPasswordConfirm, showPasswords, keyboardFocus, kbLayout, kbVariant)
    }

    ghost predicate Valid()
      reads this
    {
      ValidSoFar(Abs())
    }

    /** `App::new` */
    constructor (spec: Spec, found: seq<Device>)
      requires found != []
      ensures Valid() && Abs() == NewForm(spec, found)
    {
      screen := DeviceSelect;
      outcome := None;
      error := None;
      devices := found;
      deviceIdx := 0;
      partitionFocus := 0;
      espMibInput := if spec.espMib.Some? then Decimal(spec.espMib.value) else "512";
      rootGibInput := if spec.rootGib.Some? then Decimal(spec.rootGib.value) else "0";
      userFocus := 0;
      userName := OrElse(spec.name, "");
      userRealName := OrElse(spec.realName, "");
      userPassword := "";
      userPasswordConfirm := "";
      showPasswords := false;
      keyboardFocus := 0;
      kbLayout := OrElse(spec.layout, "us");
      kbVariant := OrElse(spec.variant, "");
    }

    /** `handle_key` */
    method HandleKey(key: Key)
      requires Valid() && outcome.None?
      modifies this
      ensures Valid() && Abs() == Press(old(Abs()), key)
    {
      hide PressDevices, PressPartition, PressUser, PressKeyboard, ValidSoFar;
      PressKeepsValid(Abs(), key);
      ValidIsInRange(Abs());
      if key.code == Esc || (key.code == Char('c') && key.control) {
        outcome := Some(Cancelled);
        return;
      }
      error := None;
      match screen {
        case DeviceSelect => HandleDevices(key.code);
        case Partition => HandlePartition(key.code);
        case User => HandleUser(key.code);
        case Keyboard => HandleKeyboard(key.code);
        case Summary => HandleSummary(key.code);
      }
    }

    method HandleDevices(k: Code)
      requires InRange(Abs())
      modifies this
      ensures Abs() == PressDevices(old(Abs()), k)
    {
      if k == Up || k == Char('k') {
        if deviceIdx > 0 {
          deviceIdx := deviceIdx - 1;
        }
      } else if k == Down || k == Char('j') {
        if deviceIdx + 1 < |devices| {
          deviceIdx := deviceIdx + 1;
        }
      } else if k == Enter {
        if !devices[deviceIdx].removable {
          error := Some(NotRemovable);
          return;
        }
        screen := Partition;
      }
    }

    method HandlePartition(k: Code)
      requires InRange(Abs())
      modifies this
      ensures Abs() == PressPartition(old(Abs()), k)
    {
      hide ParseU32, ByteLength, MaxRootGib;
      var buf := if partitionFocus == 0 then espMibInput else rootGibInput;
      match k {
        case Tab | Down | BackTab | Up =>
          partitionFocus := (partitionFocus + 1) % 2;
        case Char(c) =>
          if IsDigit(c) && ByteLength(buf) < 10 {
            SetPartitionField(buf + [c]);
          }
        case Backspace =>
          SetPartitionField(Pop(buf));
        case Enter =>
          var esp := ParseU32(espMibInput);
          if esp.None? || !(64 <= esp.value <= 8192) {
            error := Some(BadEsp);
            return;
          }
          var root := ParseU32(rootGibInput);
          if root.None? {
            error := Some(BadRoot);
            return;
          }
          if root.value != 0 {
            if root.value > MaxRootGib(devices[deviceIdx], esp.value) {
              error := Some(RootTooLarge);
              return;
            }
          }
          screen := User;
        case Left =>
          screen := DeviceSelect;
        case _ =>
      }
    }

    method SetPartitionField(text: string)
      modifies this`espMibInput, this`rootGibInput
      ensures Abs() == EditPartition(old(Abs()), text)
    {
      if partitionFocus == 0 {
        espMibInput := text;
      } else {
        rootGibInput := text;
      }
    }

    method HandleUser(k: Code)
      requires InRange(Abs())
      modifies this
      ensures Abs() == PressUser(old(Abs()), k)
    {
      hide ByteLength, AllNameChars;
      if k == F(2) {
        showPasswords := !showPasswords;
        return;
      }
      if k == Tab || k == Down {
        userFocus := (userFocus + 1) % 4;
        return;
      }
      if k == BackTab || k == Up {
        userFocus := (userFocus + 3) % 4;
        return;
      }
      if k == Left {
        screen := Partition;
        return;
      }
      if k == Enter {
        if userName == [] || userName == "root" {
          error := Some(BadUserName);
          return;
        }
        if !AllNameChars(userName) {
          error := Some(BadUserNameChars);
          return;
        }
        if ByteLength(userPassword) < 6 {
          error := Some(ShortPassword);
          return;
        }
        if userPassword != userPasswordConfirm {
          error := Some(PasswordMismatch);
          return;
        }
        screen := Keyboard;
        return;
      }
      var buf := if userFocus == 0 then userName else if userFocus == 1 then userRealName else if userFocus == 2 then userPassword else userPasswordConfirm;
      match k {
        case Char(c) => SetUserField(buf + [c]);
        case Backspace => SetUserField(Pop(buf));
        case _ =>
      }
    }

    method SetUserField(text: string)
      modifies this`userName, this`userRealName, this`userPassword, this`userPasswordConfirm
      ensures Abs() == EditUser(old(Abs()), text)
    {
      match userFocus {
        case 0 => userName := text;
        case 1 => userRealName := text;
        case 2 => userPassword := text;
        case _ => userPasswordConfirm := text;
      }
    }

    method HandleKeyboard(k: Code)
      requires InRange(Abs())
      modifies this
      ensures Abs() == PressKeyboard(old(Abs()), k)
    {
      hide ValidKeymap;
      if k == Tab || k == Down || k == BackTab || k == Up {
        keyboardFocus := (keyboardFocus + 1) % 2;
        return;
      }
      if k == Left {
        screen := User;
        return;
      }
      if k == Enter {
        if kbLayout == [] {
          error := Some(NoLayout);
          return;
        }
        if !ValidKeymap(kbLayout) {
          error := Some(BadLayout);
          return;
        }
        if kbVariant != [] && !ValidKeymap(kbVariant) {
          error := Some(BadVariant);
          return;
        }
        screen := Summary;
        return;
      }
      var buf := if keyboardFocus == 0 then kbLayout else kbVariant;
      match k {
        case Char(c) => SetKeyboardField(buf + [c]);
        case Backspace => SetKeyboardField(Pop(buf));
        case _ =>
      }
    }

    method SetKeyboardField(text: string)
      modifies this`kbLayout, this`kbVariant
      ensures Abs() == EditKeyboard(old(Abs()), text)
    {
      if keyboardFocus == 0 {
        kbLayout := text;
      } else {
        kbVariant := text;
      }
    }

    method HandleSummary(k: Code)
      requires InRange(Abs())
      modifies this
      ensures Abs() == PressSummary(old(Abs()), k)
    {
      match k {
        case Enter => outcome := Some(Confirmed);
        case Left | Backspace => screen := Keyboard;
        case _ =>
      }
    }

    /** The loop of `run_tui`, on a given supply of keys. The plan of a confirmed form is
        built, and that cannot fail; it asks for what the form shows, and is safe. */
    method Run(keys: seq<Key>) returns (plan: Option<Plan>)
      requires Valid() && outcome.None?
      modifies this
      ensures Valid() && InRange(old(Abs())) && Abs() == Feed(old(Abs()), keys)
      ensures plan.Some? <==> outcome == Some(Confirmed)
      ensures plan.Some? ==> plan == BuildPlan(Abs())
      ensures plan.Some? ==> deviceIdx < |devices| && PlanSays(plan.value, Abs()) && PlanIsSafe(plan.value, devices[deviceIdx])
    {
      hide Press, CheckPartition, CheckUser, CheckKeyboard, BuildPlan, Fits, PlanSays, PlanIsSafe;
      var i := 0;
      while i < |keys| && outcome.None?
        invariant i <= |keys| && Valid() && InRange(old(Abs()))
        invariant Feed(Abs(), keys[i..]) == Feed(old(Abs()), keys)
      {
        assert keys[i..][1..] == keys[i + 1..];
        HandleKey(keys[i]);
        i := i + 1;
      }
      plan := None;
      if outcome == Some(Confirmed) {
        ConfirmedPlan(Abs());
        plan := BuildPlan(Abs());
      }
    }
  }

  lemma ValidIsInRange(f: Form)
    requires ValidSoFar(f)
    ensures InRange(f)
  {
  }
}
