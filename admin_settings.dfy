// The settings page of the admin panel (public/js/admin-settings.js): how stored values
// are written into the form, which delivery group is shown, the settings record the
// save button builds from the form, and the password change.
module AdminSettings {
  import opened Js
  import opened Data

  // ---------------------------------------------------------------- filling the form

  /** `setValue(id, val)`: what an input shows for a settings value. */
  function FieldValue(val: Value): (r: string)
    ensures val.Undefined? || val.Null? ==> r == ""
    ensures val.Str? ==> r == val.s
    ensures val.Num? ==> r == NumberToString(val.n)
  {
    if val.Undefined? || val.Null? then "" else ToJsString(val)
  }

  /** `setChecked(id, val)`: a checkbox is ticked exactly for a truthy value. */
  predicate Checked(val: Value) {
    Truthy(val)
  }

  /** The delivery type a set of radio buttons stands for: the checked one, or `fixed`. */
  function DeliveryType(selected: Option<string>): string {
    if selected.Some? then selected.value else "fixed"
  }

  /** Which of the two delivery groups `toggleDeliveryMode()` displays. */
  datatype Groups = Groups(fixedCostShown: bool, distanceCostShown: bool)

  function DeliveryGroups(selected: Option<string>): Groups {
    Groups(DeliveryType(selected) == "fixed", false)
  }

  /** The fixed-cost group shows exactly when the fixed type is checked or nothing is;
      the per-distance group never shows. */
  lemma DeliveryGroupsCases(selected: Option<string>)
    ensures DeliveryGroups(selected).fixedCostShown <==> selected.None? || selected.value == "fixed"
    ensures !DeliveryGroups(selected).distanceCostShown
  {
  }

  // ---------------------------------------------------------------- saving the form

  /** The inputs `handleSaveSettings()` reads; `None` where the page lacks the element
      (for `deliveryType`: where no radio button is checked). */
  datatype SettingsForm = SettingsForm(
    name: Option<string>, phone: Option<string>, address: Option<string>,
    isOpen: Option<bool>, deliveryType: Option<string>,
    fixedCost: Option<string>, costPerKm: Option<string>, maxDistance: Option<string>,
    telegramToken: Option<string>, telegramChatId: Option<string>)

  /** `safeVal(id)`: the trimmed text of an input, `''` without the input. */
  function SafeVal(field: Option<string>): string {
    if field.Some? then Trim(field.value) else ""
  }

  /** `parseNum(id)`: the number an input parses to, 0 without the input or a number. */
  function ParseNum(field: Option<string>): real {
    if field.None? then 0.0
    else var v := ParseFloatStr(field.value); if v.NaN? then 0.0 else v.n
  }

  /** What the save reads off the form. */
  datatype FormValues = FormValues(
    name: string, phone: string, address: string, isOpen: bool, deliveryType: string,
    fixedCost: real, costPerKm: real, maxDistance: real, telegramToken: string, telegramChatId: string)

  /** The form read the way `handleSaveSettings()` reads it: texts trimmed, numbers
      parsed, the shop open without the checkbox, `fixed` without a checked type. */
  function ReadForm(form: SettingsForm): FormValues {
    FormValues(SafeVal(form.name), SafeVal(form.phone), SafeVal(form.address),
               form.isOpen.None? || form.isOpen.value, DeliveryType(form.deliveryType),
               ParseNum(form.fixedCost), ParseNum(form.costPerKm), ParseNum(form.maxDistance),
               SafeVal(form.telegramToken), SafeVal(form.telegramChatId))
  }

  /** A missing input reads as empty text or 0, and a missing checkbox as open; a text
      that is not a number reads as 0. */
  lemma ReadFormDefaults(form: SettingsForm)
    ensures form.name.None? ==> ReadForm(form).name == ""
    ensures form.isOpen.None? ==> ReadForm(form).isOpen
    ensures form.deliveryType.None? ==> ReadForm(form).deliveryType == "fixed"
    ensures form.fixedCost.None? || ParseFloatStr(form.fixedCost.value).NaN? ==> ReadForm(form).fixedCost == 0.0
    ensures form.fixedCost.Some? && ParseFloatStr(form.fixedCost.value).Num? ==>
      ReadForm(form).fixedCost == ParseFloatStr(form.fixedCost.value).n
  {
  }

  /** The top-level keys the save writes. */
  const SavedKeys: set<string> :=
    {"restaurantName", "phone", "address", "isOpen", "delivery", "telegramBotToken", "telegramChatId"}

  /** The delivery keys the save writes. */
  const DeliveryKeys: set<string> := {"enabled", "type", "fixedCost", "costPerKm", "maxDistance"}

  /** What the saved delivery object holds, given the value it started from: switched
      on, the checked type (`fixed` by default) and the parsed costs, with its other keys
      as they were. A delivery value that is truthy but not an object takes no fields, as
      a property write on a primitive does nothing. */
  ghost predicate DeliveryFrom(before: Value, v: FormValues, d: Value) {
    && (before.Obj? || !Truthy(before) ==>
          && d.Obj?
          && Get(d, "enabled") == Bool(true)
          && Get(d, "type") == Str(v.deliveryType)
          && Get(d, "fixedCost") == Num(v.fixedCost)
          && Get(d, "costPerKm") == Num(v.costPerKm)
          && Get(d, "maxDistance") == Num(v.maxDistance)
          && (forall k :: k in Props(before) && k !in DeliveryKeys ==> k in d.props && d.props[k] == Props(before)[k])
          && (forall k :: k in d.props ==> k in Props(before) || k in DeliveryKeys))
    && (!before.Obj? && Truthy(before) ==> d == before)
  }

  /** The delivery part of `handleSaveSettings()`: `{}` when there is none, then its
      fields one by one. */
  method BuildDelivery(before: Value, v: FormValues) returns (delivery: Value)
    ensures DeliveryFrom(before, v, delivery)
  {
    delivery := before;
    if !Truthy(delivery) {
      delivery := Obj(map[]);
    }
    delivery := Set(delivery, "enabled", Bool(true));
    delivery := Set(delivery, "type", Str(v.deliveryType));
    delivery := Set(delivery, "fixedCost", Num(v.fixedCost));
    delivery := Set(delivery, "costPerKm", Num(v.costPerKm));
    delivery := Set(delivery, "maxDistance", Num(v.maxDistance));
    if before.Obj? || !Truthy(before) {
      assert delivery == Obj(WrittenDelivery(Props(before), v));
      WrittenDeliveryFrom(before, v);
    }
  }

  /** The delivery fields written over `p`. */
  function WrittenDelivery(p: Record, v: FormValues): Record {
    p["enabled" := Bool(true)]["type" := Str(v.deliveryType)]["fixedCost" := Num(v.fixedCost)]
      ["costPerKm" := Num(v.costPerKm)]["maxDistance" := Num(v.maxDistance)]
  }

  lemma WrittenDeliveryFrom(before: Value, v: FormValues)
    requires before.Obj? || !Truthy(before)
    ensures DeliveryFrom(before, v, Obj(WrittenDelivery(Props(before), v)))
  {
  }

  /** What the saved record holds, given the settings it started from: the trimmed
      texts, `isOpen` as ticked (open without the checkbox), the delivery object as above,
      and every other key as it was. */
  ghost predicate SavedFrom(view: Record, v: FormValues, saved: Value) {
    && saved.Obj?
    && Get(saved, "restaurantName") == Str(v.name)
    && Get(saved, "phone") == Str(v.phone)
    && Get(saved, "address") == Str(v.address)
    && Get(saved, "isOpen") == Bool(v.isOpen)
    && Get(saved, "telegramBotToken") == Str(v.telegramToken)
    && Get(saved, "telegramChatId") == Str(v.telegramChatId)
    && DeliveryFrom(if "delivery" in view then view["delivery"] else Undefined, v, Get(saved, "delivery"))
    && (forall k :: k in view && k !in SavedKeys ==> k in saved.props && saved.props[k] == view[k])
    && (forall k :: k in saved.props ==> k in view || k in SavedKeys)
  }

  /** `handleSaveSettings()` up to the save: a copy of the settings is overwritten field
      by field from the form. */
  method BuildSettings(view: Record, v: FormValues) returns (settings: Value)
    ensures SavedFrom(view, v, settings)
  {
    var delivery := BuildDelivery(if "delivery" in view then view["delivery"] else Undefined, v);
    var s := view;
    s := s["restaurantName" := Str(v.name)];
    s := s["phone" := Str(v.phone)];
    s := s["address" := Str(v.address)];
    s := s["isOpen" := Bool(v.isOpen)];
    s := s["delivery" := delivery];
    s := s["telegramBotToken" := Str(v.telegramToken)];
    s := s["telegramChatId" := Str(v.telegramChatId)];
    settings := Obj(s);
  }

  /** The save button: the record built from `getSettings()` and the form is merged into
      the settings by `updateSettingsData`, or, when that function is missing, written to
      `localStorage` under `settings`. */
  method HandleSaveSettings(store: Store, form: SettingsForm, hasUpdateSettingsData: bool, response: Response)
    returns (saved: Value)
    modifies store`settings, store`storage, store`sent
    ensures SavedFrom(SettingsView(old(store.settings)), ReadForm(form), saved)
    ensures hasUpdateSettingsData ==>
      store.settings == Obj(Props(Or(old(store.settings), Obj(map[]))) + Props(saved))
      && store.storage == old(store.storage)["cachedSettings" := Json(store.settings)]
      && store.sent == old(store.sent) + [ApiCall("saveSettings", [store.settings])]
    ensures !hasUpdateSettingsData ==>
      store.settings == old(store.settings) && store.sent == old(store.sent)
      && store.storage == old(store.storage)["settings" := Json(saved)]
  {
    var view := store.GetSettings();
    saved := BuildSettings(view, ReadForm(form));
    if hasUpdateSettingsData {
      var _ := store.UpdateSettingsData(saved, response);
    } else {
      store.storage := store.storage["settings" := Json(saved)];
    }
  }

  /** Trimmed texts survive a load followed by a save: what `setValue` puts into a text
      input is what the save reads back. */
  lemma TextRoundTrip(view: Record, form: SettingsForm, saved: Value)
    requires SavedFrom(view, ReadForm(form), saved)
    requires "restaurantName" in view && view["restaurantName"].Str? && Trim(view["restaurantName"].s) == view["restaurantName"].s
    requires form.name == Some(FieldValue(view["restaurantName"]))
    ensures Get(saved, "restaurantName") == view["restaurantName"]
  {
  }

  // ---------------------------------------------------------------- the password

  const DefaultPassword: string := "admin123"
  const MinPasswordLength: nat := 6

  /** How `changePassword()` ends: the message it shows for the first failing check, or
      the change. */
  datatype PasswordOutcome = MissingField | WrongCurrent | Mismatch | TooShort | Changed

  /** The password checks, in the order the handler runs them. */
  function PasswordCheck(stored: Value, current: string, newPassword: string, confirm: string): PasswordOutcome {
    if current == "" || newPassword == "" || confirm == "" then MissingField
    else if !StrictEq(Str(current), Or(stored, Str(DefaultPassword))) then WrongCurrent
    else if newPassword != confirm then Mismatch
    else if |newPassword| < MinPasswordLength then TooShort
    else Changed
  }

  /** The change goes through exactly when every field is filled, the current password is
      the stored one (`admin123` when none is stored), the two new entries agree and are
      at least six characters long; each refusal names the first check that fails. */
  lemma PasswordCheckCases(stored: Value, current: string, newPassword: string, confirm: string)
    ensures PasswordCheck(stored, current, newPassword, confirm) == Changed <==>
      && current != "" && confirm != ""
      && Or(stored, Str(DefaultPassword)) == Str(current)
      && newPassword == confirm && |newPassword| >= MinPasswordLength
    ensures PasswordCheck(stored, current, newPassword, confirm) == MissingField <==>
      current == "" || newPassword == "" || confirm == ""
    ensures PasswordCheck(stored, current, newPassword, confirm) == WrongCurrent ==>
      !Truthy(stored) ==> current != DefaultPassword
  {
  }

  /** Once changed, the new password is the one the next change asks for, and the
      default password no longer opens it unless it was chosen. */
  lemma NewPasswordTakesOver(newPassword: string, next: string)
    requires newPassword != "" && |next| >= MinPasswordLength
    ensures PasswordCheck(Str(newPassword), newPassword, next, next) == Changed
    ensures newPassword != DefaultPassword ==> PasswordCheck(Str(newPassword), DefaultPassword, next, next) == WrongCurrent
  {
  }

  /** `changePassword()`: on the first failing check nothing changes; once all pass,
      the settings view with the new password goes to `updateSettingsData`, or, when
      that function is missing, to `localStorage` under `settings`. */
  method ChangePassword(store: Store, current: string, newPassword: string, confirm: string,
                        hasUpdateSettingsData: bool, response: Response)
    returns (outcome: PasswordOutcome)
    modifies store`settings, store`storage, store`sent
    ensures var view := SettingsView(old(store.settings));
      outcome == PasswordCheck(if "adminPassword" in view then view["adminPassword"] else Undefined,
                               current, newPassword, confirm)
    ensures outcome != Changed ==>
      store.settings == old(store.settings) && store.storage == old(store.storage) && store.sent == old(store.sent)
    ensures outcome == Changed && hasUpdateSettingsData ==>
      store.settings == Obj(Props(Or(old(store.settings), Obj(map[])))
                            + SettingsView(old(store.settings))["adminPassword" := Str(newPassword)])
      && store.storage == old(store.storage)["cachedSettings" := Json(store.settings)]
      && store.sent == old(store.sent) + [ApiCall("saveSettings", [store.settings])]
    ensures outcome == Changed && !hasUpdateSettingsData ==>
      store.settings == old(store.settings)
      && store.storage == old(store.storage)["settings" := Json(Obj(SettingsView(old(store.settings))["adminPassword" := Str(newPassword)]))]
  {
    if current == "" || newPassword == "" || confirm == "" {
      return MissingField;
    }
    var settings := store.GetSettings();
    var stored := Or(if "adminPassword" in settings then settings["adminPassword"] else Undefined, Str(DefaultPassword));
    if !StrictEq(Str(current), stored) {
      return WrongCurrent;
    }
    if newPassword != confirm {
      return Mismatch;
    }
    if |newPassword| < MinPasswordLength {
      return TooShort;
    }
    settings := settings["adminPassword" := Str(newPassword)];
    if hasUpdateSettingsData {
      var _ := store.UpdateSettingsData(Obj(settings), response);
    } else {
      store.storage := store.storage["settings" := Json(Obj(settings))];
    }
    outcome := Changed;
  }

  /** After a successful change through `updateSettingsData`, the settings the page
      reads carry the new password. */
  lemma ChangedPasswordStored(before: Value, newPassword: string)
    ensures var after := Obj(Props(Or(before, Obj(map[]))) + SettingsView(before)["adminPassword" := Str(newPassword)]);
      var view := SettingsView(after);
      "adminPassword" in view && view["adminPassword"] == Str(newPassword)
  {
  }
}
