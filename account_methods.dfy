/**
 * `AccountMethods`: the request descriptors for "api/v1/accounts". Each builder fills a fresh
 * `Parameters` by appending, in a fixed order, the mandatory entries and each optional entry
 * whose argument is given; `ProfileFields.toParameters` appends the profile fields to a
 * `Parameters` it is handed.
 */
module AccountMethods {
  import opened Wrappers
  import opened Throwables
  import opened Text
  import opened ParameterLists
  import opened Http
  import opened Client

  const ENDPOINT := "api/v1/accounts"
  const MAX_FIELD_LENGTH := 255

  // Profile fields.

  datatype ProfileFieldName = ProfileFieldName(name: string)
  datatype ProfileFieldValue = ProfileFieldValue(value: string)

  /** The `require` message of a value class: what is checked, the offending text and its length. */
  function TooLongMessage(what: string, s: string): string {
    what + " of profile field must not be longer than 255 characters but was: " + s
      + " (" + IntToString(|s|) + " characters)."
  }

  /** The `ProfileFieldName` constructor: at most 255 characters, else an IllegalArgumentException. */
  function MakeProfileFieldName(name: string): (r: Result<ProfileFieldName, Throwable>)
    ensures r.Success? <==> |name| <= MAX_FIELD_LENGTH
    ensures r.Success? ==> r.value.name == name
    ensures r.Failure? ==> r.error == Throwable(IllegalArgumentException, Some(TooLongMessage("Name", name)), None)
  {
    if |name| <= MAX_FIELD_LENGTH then Success(ProfileFieldName(name))
    else Failure(Throwable(IllegalArgumentException, Some(TooLongMessage("Name", name)), None))
  }

  /** The `ProfileFieldValue` constructor: at most 255 characters, else an IllegalArgumentException. */
  function MakeProfileFieldValue(value: string): (r: Result<ProfileFieldValue, Throwable>)
    ensures r.Success? <==> |value| <= MAX_FIELD_LENGTH
    ensures r.Success? ==> r.value.value == value
    ensures r.Failure? ==> r.error == Throwable(IllegalArgumentException, Some(TooLongMessage("Value", value)), None)
  {
    if |value| <= MAX_FIELD_LENGTH then Success(ProfileFieldValue(value))
    else Failure(Throwable(IllegalArgumentException, Some(TooLongMessage("Value", value)), None))
  }

  datatype ProfileField = ProfileField(name: ProfileFieldName, value: ProfileFieldValue)

  /** At most four profile fields, each slot possibly empty. */
  datatype ProfileFields = ProfileFields(first: Option<ProfileField>, second: Option<ProfileField>,
                                         third: Option<ProfileField>, fourth: Option<ProfileField>)
  {
    /** The slot with the given position: `first` is 0, `fourth` is 3. */
    function At(index: nat): Option<ProfileField>
      requires index < 4
    {
      if index == 0 then first else if index == 1 then second else if index == 2 then third else fourth
    }
  }

  function NameKey(index: nat): string {
    "fields_attributes[" + IntToString(index) + "][name]"
  }

  function ValueKey(index: nat): string {
    "fields_attributes[" + IntToString(index) + "][value]"
  }

  /** What `appendField(index, name, value)` appends: the name entry, then the value entry. */
  function FieldEntries(index: nat, field: ProfileField): seq<Entry> {
    [Entry(NameKey(index), Text(field.name.name)), Entry(ValueKey(index), Text(field.value.value))]
  }

  function SlotEntries(index: nat, slot: Option<ProfileField>): seq<Entry> {
    if slot.Some? then FieldEntries(index, slot.value) else []
  }

  /** The entries `toParameters` appends: each present slot under its own index, in slot order. */
  function ProfileFieldsEntries(fields: ProfileFields): seq<Entry> {
    SlotEntries(0, fields.first) + SlotEntries(1, fields.second)
      + SlotEntries(2, fields.third) + SlotEntries(3, fields.fourth)
  }

  /** How many of the slots before `index` are filled. */
  function FilledBefore(fields: ProfileFields, index: nat): (n: nat)
    requires index <= 4
    ensures n <= index
  {
    if index == 0 then 0
    else FilledBefore(fields, index - 1) + (if fields.At(index - 1).Some? then 1 else 0)
  }

  /** The local `appendField`. */
  method AppendField(parameters: Parameters, index: nat, field: ProfileField)
    modifies parameters
    ensures parameters.entries == old(parameters.entries) + FieldEntries(index, field)
  {
    var _ := parameters.Append(NameKey(index), Text(field.name.name));
    var _ := parameters.Append(ValueKey(index), Text(field.value.value));
  }

  /** One `field?.let { appendField(index, it.name, it.value) }` line. */
  method AppendSlot(parameters: Parameters, index: nat, slot: Option<ProfileField>)
    modifies parameters
    ensures parameters.entries == old(parameters.entries) + SlotEntries(index, slot)
  {
    if slot.Some? {
      AppendField(parameters, index, slot.value);
    }
  }

  /**
   * `ProfileFields.toParameters(parameters)`: appends to the `Parameters` it is given and returns
   * that same object; what it held before is kept as it was.
   */
  method ToParameters(fields: ProfileFields, parameters: Parameters) returns (self: Parameters)
    modifies parameters
    ensures self == parameters
    ensures parameters.entries == old(parameters.entries) + ProfileFieldsEntries(fields)
  {
    ghost var before := parameters.entries;
    AppendSlot(parameters, 0, fields.first);
    AppendSlot(parameters, 1, fields.second);
    AppendSlot(parameters, 2, fields.third);
    AppendSlot(parameters, 3, fields.fourth);
    assert parameters.entries == before + (SlotEntries(0, fields.first) + SlotEntries(1, fields.second)
                                           + SlotEntries(2, fields.third) + SlotEntries(3, fields.fourth));
    self := parameters;
  }

  /** The keys of distinct slots differ, and a name key never equals a value key. */
  lemma {:induction false} FieldKeysDistinct(i: nat, j: nat)
    requires i < 4 && j < 4
    ensures NameKey(i) != ValueKey(j)
    ensures i != j ==> NameKey(i) != NameKey(j) && ValueKey(i) != ValueKey(j)
  {
    assert |NameKey(i)| != |ValueKey(j)|;
    if i != j {
      assert IntToString(i) == [DigitChar(i)] && IntToString(j) == [DigitChar(j)];
      assert NameKey(i)[18] == DigitChar(i) && NameKey(j)[18] == DigitChar(j);
      assert ValueKey(i)[18] == DigitChar(i) && ValueKey(j)[18] == DigitChar(j);
    }
  }

  /** The filled-slot counts, written out slot by slot. */
  lemma {:induction false} FilledCounts(fields: ProfileFields)
    ensures FilledBefore(fields, 1) * 2 == |SlotEntries(0, fields.first)|
    ensures FilledBefore(fields, 2) * 2 == |SlotEntries(0, fields.first) + SlotEntries(1, fields.second)|
    ensures FilledBefore(fields, 3) * 2
         == |SlotEntries(0, fields.first) + SlotEntries(1, fields.second) + SlotEntries(2, fields.third)|
    ensures FilledBefore(fields, 4) * 2 == |ProfileFieldsEntries(fields)|
  {
    assert FilledBefore(fields, 0) == 0;
    assert FilledBefore(fields, 1) == FilledBefore(fields, 0) + (if fields.first.Some? then 1 else 0);
    assert FilledBefore(fields, 2) == FilledBefore(fields, 1) + (if fields.second.Some? then 1 else 0);
    assert FilledBefore(fields, 3) == FilledBefore(fields, 2) + (if fields.third.Some? then 1 else 0);
    assert FilledBefore(fields, 4) == FilledBefore(fields, 3) + (if fields.fourth.Some? then 1 else 0);
  }

  /** Two entries for each filled slot, none for an empty one. */
  lemma {:induction false} ProfileFieldsCount(fields: ProfileFields)
    ensures |ProfileFieldsEntries(fields)| == 2 * FilledBefore(fields, 4)
  {
    FilledCounts(fields);
  }

  /** A filled slot found after `before`, which holds exactly the entries of the filled slots before it. */
  lemma {:induction false} PositionAfter(fields: ProfileFields, index: nat, before: seq<Entry>, after: seq<Entry>)
    requires index < 4 && fields.At(index).Some?
    requires ProfileFieldsEntries(fields) == before + SlotEntries(index, fields.At(index)) + after
    requires |before| == 2 * FilledBefore(fields, index)
    ensures var entries := ProfileFieldsEntries(fields);
      var at := 2 * FilledBefore(fields, index);
      && at + 1 < |entries|
      && entries[at] == Entry(NameKey(index), Text(fields.At(index).value.name.name))
      && entries[at + 1] == Entry(ValueKey(index), Text(fields.At(index).value.value.value))
  {
  }

  /**
   * A filled slot keeps its own index whatever the slots before it hold: its name and value
   * entries sit right after the entries of the filled slots before it.
   */
  lemma {:induction false} ProfileFieldPosition(fields: ProfileFields, index: nat)
    requires index < 4 && fields.At(index).Some?
    ensures var entries := ProfileFieldsEntries(fields);
      var at := 2 * FilledBefore(fields, index);
      && at + 1 < |entries|
      && entries[at] == Entry(NameKey(index), Text(fields.At(index).value.name.name))
      && entries[at + 1] == Entry(ValueKey(index), Text(fields.At(index).value.value.value))
  {
    var s0, s1, s2, s3 := SlotEntries(0, fields.first), SlotEntries(1, fields.second),
                          SlotEntries(2, fields.third), SlotEntries(3, fields.fourth);
    FilledCounts(fields);
    if index == 0 {
      PositionAfter(fields, 0, [], s1 + s2 + s3);
    } else if index == 1 {
      PositionAfter(fields, 1, s0, s2 + s3);
    } else if index == 2 {
      PositionAfter(fields, 2, s0 + s1, s3);
    } else {
      PositionAfter(fields, 3, s0 + s1 + s2, []);
    }
  }

  /** The five mandatory entries of `registerAccount`. */
  function MandatoryEntries(username: string, email: string, password: string, agreement: bool, locale: string): (head: seq<Entry>)
    ensures Keys(head) == ["username", "email", "password", "agreement", "locale"]
  {
    [Entry("username", Text(username)), Entry("email", Text(email)), Entry("password", Text(password)),
     Entry("agreement", Flag(agreement)), Entry("locale", Text(locale))]
  }

  /** The entries `registerAccount` appends: five always, then the reason and the date of birth when given. */
  function RegisterEntries(username: string, email: string, password: string, agreement: bool, locale: string,
                           reason: Option<string>, dateOfBirth: Option<string>): seq<Entry>
  {
    MandatoryEntries(username, email, password, agreement, locale)
    + Contribution(Slot(reason.Some?, Entry("reason", Text(reason.GetOr("")))))
    + Contribution(Slot(dateOfBirth.Some?, Entry("date_of_birth", Text(dateOfBirth.GetOr("")))))
  }

  /**
   * `registerAccount`: a POST to the accounts endpoint. The date of birth is given as the text
   * its `toString()` renders.
   */
  method RegisterAccount(username: string, email: string, password: string, agreement: bool, locale: string,
                         reason: Option<string>, dateOfBirth: Option<string>)
    returns (request: MastodonRequest)
    ensures request == GetMastodonRequest(ENDPOINT, POST,
      Some(RegisterEntries(username, email, password, agreement, locale, reason, dateOfBirth)))
  {
    var p := new Parameters();
    var _ := p.Append("username", Text(username));
    var _ := p.Append("email", Text(email));
    var _ := p.Append("password", Text(password));
    var _ := p.Append("agreement", Flag(agreement));
    var _ := p.Append("locale", Text(locale));
    assert p.entries == [Entry("username", Text(username)), Entry("email", Text(email)), Entry("password", Text(password)),
                         Entry("agreement", Flag(agreement)), Entry("locale", Text(locale))];
    p.AppendWhen(reason.Some?, "reason", Text(reason.GetOr("")));
    p.AppendWhen(dateOfBirth.Some?, "date_of_birth", Text(dateOfBirth.GetOr("")));
    request := GetMastodonRequest(ENDPOINT, POST, Some(p.entries));
  }

  /**
   * The five mandatory entries come first, in fixed order; then the reason exactly when one is
   * given, and the date of birth exactly when one is given, always last.
   */
  lemma {:induction false} RegisterOrder(username: string, email: string, password: string, agreement: bool, locale: string,
                                         reason: Option<string>, dateOfBirth: Option<string>)
    ensures var entries := RegisterEntries(username, email, password, agreement, locale, reason, dateOfBirth);
      && |entries| == 5 + (if reason.Some? then 1 else 0) + (if dateOfBirth.Some? then 1 else 0)
      && entries[..5] == [Entry("username", Text(username)), Entry("email", Text(email)), Entry("password", Text(password)),
                          Entry("agreement", Flag(agreement)), Entry("locale", Text(locale))]
      && (reason.Some? ==> entries[5] == Entry("reason", Text(reason.value)))
      && (dateOfBirth.Some? ==> entries[|entries| - 1] == Entry("date_of_birth", Text(dateOfBirth.value)))
  {
    var head := [Entry("username", Text(username)), Entry("email", Text(email)), Entry("password", Text(password)),
                 Entry("agreement", Flag(agreement)), Entry("locale", Text(locale))];
    var r := Contribution(Slot(reason.Some?, Entry("reason", Text(reason.GetOr("")))));
    var d := Contribution(Slot(dateOfBirth.Some?, Entry("date_of_birth", Text(dateOfBirth.GetOr("")))));
    var entries := head + r + d;
    assert entries[..5] == head;
  }

  /**
   * None of the mandatory keys is "reason" or "date_of_birth": looking either up finds the given
   * value, or nothing.
   */
  lemma {:induction false} RegisterOptionalLookup(username: string, email: string, password: string, agreement: bool, locale: string,
                                                  reason: Option<string>, dateOfBirth: Option<string>)
    ensures var entries := RegisterEntries(username, email, password, agreement, locale, reason, dateOfBirth);
      && Lookup(entries, "reason") == (if reason.Some? then Some(Text(reason.value)) else None)
      && Lookup(entries, "date_of_birth") == (if dateOfBirth.Some? then Some(Text(dateOfBirth.value)) else None)
  {
    var head := MandatoryEntries(username, email, password, agreement, locale);
    var r := Contribution(Slot(reason.Some?, Entry("reason", Text(reason.GetOr("")))));
    var d := Contribution(Slot(dateOfBirth.Some?, Entry("date_of_birth", Text(dateOfBirth.GetOr("")))));
    assert RegisterEntries(username, email, password, agreement, locale, reason, dateOfBirth) == head + r + d;
    assert "reason" !in Keys(head) && "date_of_birth" !in Keys(head);
    LookupConcat(head + r, d, "reason");
    LookupConcat(head, r, "reason");
    LookupConcat(head + r, d, "date_of_birth");
    LookupConcat(head, r, "date_of_birth");
  }

  // updateCredentials.

  /** The thirteen optional arguments of `updateCredentials`; the visibility is given by its API name. */
  datatype CredentialsUpdate = CredentialsUpdate(
    displayName: Option<string>, note: Option<string>, avatar: Option<string>, header: Option<string>,
    locked: Option<bool>, bot: Option<bool>, discoverable: Option<bool>, hideCollections: Option<bool>,
    indexable: Option<bool>, profileFields: Option<ProfileFields>,
    defaultPostVisibility: Option<string>, defaultSensitiveMark: Option<bool>, defaultLanguage: Option<string>)

  /** `value?.let { append(key, it) }` for a text. */
  function TextSlot(key: string, value: Option<string>): Slot {
    Slot(value.Some?, Entry(key, Text(value.GetOr(""))))
  }

  /** `value?.let { append(key, it) }` for a boolean. */
  function FlagSlot(key: string, value: Option<bool>): Slot {
    Slot(value.Some?, Entry(key, Flag(value.GetOr(false))))
  }

  /** Appends the slot's entry when its argument is given. */
  method AppendGiven(p: Parameters, slot: Slot)
    modifies p
    ensures p.entries == old(p.entries) + Contribution(slot)
  {
    p.AppendWhen(slot.present, slot.entry.key, slot.entry.value);
  }

  function ProfileTextSlots(u: CredentialsUpdate): seq<Slot> {
    [TextSlot("display_name", u.displayName), TextSlot("note", u.note), TextSlot("avatar", u.avatar),
     TextSlot("header", u.header)]
  }

  function ProfileFlagSlots(u: CredentialsUpdate): seq<Slot> {
    [FlagSlot("locked", u.locked), FlagSlot("bot", u.bot), FlagSlot("discoverable", u.discoverable),
     FlagSlot("hide_collections", u.hideCollections), FlagSlot("indexable", u.indexable)]
  }

  /** The entries before the profile fields: one per given argument, in declaration order. */
  function ProfileSlots(u: CredentialsUpdate): seq<Slot> {
    ProfileTextSlots(u) + ProfileFlagSlots(u)
  }

  /** The entries after the profile fields: the three defaults for authored statuses. */
  function SourceSlots(u: CredentialsUpdate): seq<Slot> {
    [TextSlot("source[privacy]", u.defaultPostVisibility), FlagSlot("source[sensitive]", u.defaultSensitiveMark),
     TextSlot("source[language]", u.defaultLanguage)]
  }

  function OptionalFieldsEntries(fields: Option<ProfileFields>): seq<Entry> {
    if fields.Some? then ProfileFieldsEntries(fields.value) else []
  }

  /** The profile texts, as appended one by one. */
  function ProfileTextEntries(u: CredentialsUpdate): seq<Entry> {
    Contribution(TextSlot("display_name", u.displayName)) + Contribution(TextSlot("note", u.note))
    + Contribution(TextSlot("avatar", u.avatar)) + Contribution(TextSlot("header", u.header))
  }

  /** The profile flags, as appended one by one. */
  function ProfileFlagEntries(u: CredentialsUpdate): seq<Entry> {
    Contribution(FlagSlot("locked", u.locked)) + Contribution(FlagSlot("bot", u.bot))
    + Contribution(FlagSlot("discoverable", u.discoverable)) + Contribution(FlagSlot("hide_collections", u.hideCollections))
    + Contribution(FlagSlot("indexable", u.indexable))
  }

  function ProfileEntries(u: CredentialsUpdate): seq<Entry> {
    ProfileTextEntries(u) + ProfileFlagEntries(u)
  }

  /** The status defaults, as appended one by one. */
  function SourceEntries(u: CredentialsUpdate): seq<Entry> {
    Contribution(TextSlot("source[privacy]", u.defaultPostVisibility))
    + Contribution(FlagSlot("source[sensitive]", u.defaultSensitiveMark))
    + Contribution(TextSlot("source[language]", u.defaultLanguage))
  }

  /** All entries of `updateCredentials`. */
  function CredentialsEntries(u: CredentialsUpdate): seq<Entry> {
    ProfileEntries(u) + OptionalFieldsEntries(u.profileFields) + SourceEntries(u)
  }

  /** The profile texts that are given, in declaration order. */
  method AppendProfileTexts(p: Parameters, u: CredentialsUpdate)
    modifies p
    ensures p.entries == old(p.entries) + ProfileTextEntries(u)
  {
    ghost var before := p.entries;
    AppendGiven(p, TextSlot("display_name", u.displayName));
    AppendGiven(p, TextSlot("note", u.note));
    AppendGiven(p, TextSlot("avatar", u.avatar));
    AppendGiven(p, TextSlot("header", u.header));
    assert p.entries == before + ProfileTextEntries(u);
  }

  /** The profile flags that are given, in declaration order. */
  method AppendProfileFlags(p: Parameters, u: CredentialsUpdate)
    modifies p
    ensures p.entries == old(p.entries) + ProfileFlagEntries(u)
  {
    ghost var before := p.entries;
    AppendGiven(p, FlagSlot("locked", u.locked));
    AppendGiven(p, FlagSlot("bot", u.bot));
    AppendGiven(p, FlagSlot("discoverable", u.discoverable));
    AppendGiven(p, FlagSlot("hide_collections", u.hideCollections));
    AppendGiven(p, FlagSlot("indexable", u.indexable));
    assert p.entries == before + ProfileFlagEntries(u);
  }

  /** The `source[...]` part: the status defaults that are given. */
  method AppendSource(p: Parameters, u: CredentialsUpdate)
    modifies p
    ensures p.entries == old(p.entries) + SourceEntries(u)
  {
    ghost var before := p.entries;
    AppendGiven(p, TextSlot("source[privacy]", u.defaultPostVisibility));
    AppendGiven(p, FlagSlot("source[sensitive]", u.defaultSensitiveMark));
    AppendGiven(p, TextSlot("source[language]", u.defaultLanguage));
    assert p.entries == before + SourceEntries(u);
  }

  /** The profile part: the given texts, then the given flags. */
  method AppendProfile(p: Parameters, u: CredentialsUpdate)
    modifies p
    ensures p.entries == old(p.entries) + ProfileEntries(u)
  {
    ghost var before := p.entries;
    AppendProfileTexts(p, u);
    AppendProfileFlags(p, u);
    assert p.entries == before + (ProfileTextEntries(u) + ProfileFlagEntries(u));
  }

  /** `profileFields?.toParameters(this)`. */
  method AppendProfileFields(p: Parameters, fields: Option<ProfileFields>)
    modifies p
    ensures p.entries == old(p.entries) + OptionalFieldsEntries(fields)
  {
    if fields.Some? {
      var _ := ToParameters(fields.value, p);
    }
  }

  /**
   * `updateCredentials`: a PATCH on "api/v1/accounts/update_credentials" whose parameters are
   * always present, even when every argument is null.
   */
  method UpdateCredentials(u: CredentialsUpdate) returns (request: MastodonRequest)
    ensures request == GetMastodonRequest(ENDPOINT + "/update_credentials", PATCH, Some(CredentialsEntries(u)))
  {
    var p := new Parameters();
    AppendProfile(p, u);
    assert p.entries == ProfileEntries(u);
    AppendProfileFields(p, u.profileFields);
    AppendSource(p, u);
    request := GetMastodonRequest(ENDPOINT + "/update_credentials", PATCH, Some(p.entries));
  }

  /** The profile part is the profile table's present entries. */
  lemma {:induction false} ProfilePresent(u: CredentialsUpdate)
    ensures ProfileEntries(u) == Present(ProfileSlots(u))
  {
    var texts := ProfileTextSlots(u);
    var flags := ProfileFlagSlots(u);
    PresentFour(texts);
    PresentFive(flags);
    PresentConcat(texts, flags);
  }

  /**
   * The entries are the given profile arguments, then the profile fields, then the given status
   * defaults: nothing for a null argument.
   */
  lemma {:induction false} CredentialsLayout(u: CredentialsUpdate)
    ensures CredentialsEntries(u)
         == Present(ProfileSlots(u)) + OptionalFieldsEntries(u.profileFields) + Present(SourceSlots(u))
  {
    ProfilePresent(u);
    PresentThree(SourceSlots(u));
  }

  const PROFILE_KEYS := ["display_name", "note", "avatar", "header", "locked", "bot", "discoverable",
                         "hide_collections", "indexable"]

  lemma {:induction false} ProfileKeysDistinct(u: CredentialsUpdate)
    ensures SlotKeys(ProfileSlots(u)) == PROFILE_KEYS
    ensures Distinct(PROFILE_KEYS)
  {
    forall i, j | 0 <= i < j < 9 ensures PROFILE_KEYS[i] != PROFILE_KEYS[j] {
      assert PROFILE_KEYS[i][0] != PROFILE_KEYS[j][0] || |PROFILE_KEYS[i]| != |PROFILE_KEYS[j]|
          || PROFILE_KEYS[i][3] != PROFILE_KEYS[j][3];
    }
  }

  /** The profile part keeps the declaration order of the arguments. */
  lemma {:induction false} ProfileOrder(u: CredentialsUpdate)
    ensures SubsequenceOf(Keys(ProfileEntries(u)), PROFILE_KEYS)
  {
    ProfilePresent(u);
    ProfileKeysDistinct(u);
    PresentInOrder(ProfileSlots(u));
  }

  /** Each profile key is sent exactly when its argument is given, with that argument's value. */
  lemma {:induction false} ProfileArgument(u: CredentialsUpdate, i: nat)
    requires i < 9
    ensures Lookup(ProfileEntries(u), PROFILE_KEYS[i])
         == if ProfileSlots(u)[i].present then Some(ProfileSlots(u)[i].entry.value) else None
  {
    ProfilePresent(u);
    ProfileKeysDistinct(u);
    PresentLookup(ProfileSlots(u), i);
  }

  /** With every argument null the request still carries parameters, just none of them. */
  lemma {:induction false} EmptyUpdateStillHasParameters()
    ensures var u := CredentialsUpdate(None, None, None, None, None, None, None, None, None, None, None, None, None);
      CredentialsEntries(u) == []
  {
  }

  /**
   * Because the parameters are never null, running the request always reaches the PATCH: the
   * client's refusal of a null PATCH body never fires, and the body is the form of the entries.
   */
  lemma {:induction false} UpdateNeverRefused(instanceName: string, u: CredentialsUpdate)
    ensures var call := Dispatch(ENDPOINT + "/update_credentials", PATCH, Some(CredentialsEntries(u)));
      && CallRequest(instanceName, call).Some?
      && CallRequest(instanceName, call).value.verb == PATCH
      && CallRequest(instanceName, call).value.body == FormBody(FORM_MEDIA_TYPE, CredentialsEntries(u))
  {
  }

  /** `Present` of three slots, slot by slot. */
  lemma {:induction false} PresentThree(slots: seq<Slot>)
    requires |slots| == 3
    ensures Present(slots) == Contribution(slots[0]) + Contribution(slots[1]) + Contribution(slots[2])
  {
    assert slots[..0] == [];
    PresentStep(slots, 0);
    PresentStep(slots, 1);
    PresentStep(slots, 2);
    assert slots[..3] == slots;
  }

  /** `Present` of four slots, slot by slot. */
  lemma {:induction false} PresentFour(slots: seq<Slot>)
    requires |slots| == 4
    ensures Present(slots) == Contribution(slots[0]) + Contribution(slots[1]) + Contribution(slots[2])
                              + Contribution(slots[3])
  {
    PresentThree(slots[..3]);
    PresentStep(slots, 3);
    assert slots[..4] == slots;
  }

  /** `Present` of five slots, slot by slot. */
  lemma {:induction false} PresentFive(slots: seq<Slot>)
    requires |slots| == 5
    ensures Present(slots) == Contribution(slots[0]) + Contribution(slots[1]) + Contribution(slots[2])
                              + Contribution(slots[3]) + Contribution(slots[4])
  {
    PresentFour(slots[..4]);
    PresentStep(slots, 4);
    assert slots[..5] == slots;
  }

  // getStatuses.

  /**
   * A `Range` (max_id, min_id, since_id, limit) is not part of this model; it is represented by
   * the entries its `toParameters()` produces.
   */
  datatype Range = Range(parameters: seq<Entry>)

  /** `range.toParameters()`: a fresh `Parameters` holding the range's entries. */
  method RangeToParameters(range: Range) returns (p: Parameters)
    ensures fresh(p)
    ensures p.entries == range.parameters
  {
    p := new Parameters();
    p.entries := range.parameters;
  }

  /** `filterByTaggedWith?.takeIf { it.isNotBlank() }`. */
  predicate Tagged(tag: Option<string>) {
    tag.Some? && !IsBlank(tag.value)
  }

  /** The entries after the range's: each flag that is set, then the tag when it is not blank. */
  function StatusFilterEntries(onlyMedia: bool, excludeReplies: bool, excludeReblogs: bool, pinned: bool,
                               tag: Option<string>): seq<Entry>
  {
    Contribution(Slot(onlyMedia, Entry("only_media", Flag(true))))
    + Contribution(Slot(pinned, Entry("pinned", Flag(true))))
    + Contribution(Slot(excludeReplies, Entry("exclude_replies", Flag(true))))
    + Contribution(Slot(excludeReblogs, Entry("exclude_reblogs", Flag(true))))
    + Contribution(Slot(Tagged(tag), Entry("tagged", Text(tag.GetOr("")))))
  }

  /** The filters of `getStatuses`, appended after the range's entries. */
  method AppendStatusFilters(p: Parameters, onlyMedia: bool, excludeReplies: bool, excludeReblogs: bool, pinned: bool,
                             tag: Option<string>)
    modifies p
    ensures p.entries == old(p.entries) + StatusFilterEntries(onlyMedia, excludeReplies, excludeReblogs, pinned, tag)
  {
    ghost var before := p.entries;
    AppendGiven(p, Slot(onlyMedia, Entry("only_media", Flag(true))));
    AppendGiven(p, Slot(pinned, Entry("pinned", Flag(true))));
    AppendGiven(p, Slot(excludeReplies, Entry("exclude_replies", Flag(true))));
    AppendGiven(p, Slot(excludeReblogs, Entry("exclude_reblogs", Flag(true))));
    AppendGiven(p, Slot(Tagged(tag), Entry("tagged", Text(tag.GetOr("")))));
    assert p.entries == before + StatusFilterEntries(onlyMedia, excludeReplies, excludeReblogs, pinned, tag);
  }

  /** `getStatuses`: a pageable GET on the account's statuses. */
  method GetStatuses(accountId: string, onlyMedia: bool := false, excludeReplies: bool := false,
                     excludeReblogs: bool := false, pinned: bool := false, filterByTaggedWith: Option<string> := None,
                     range: Range := Range([]))
    returns (request: MastodonRequest)
    ensures request == GetPageableMastodonRequest(ENDPOINT + "/" + accountId + "/statuses", GET,
      Some(range.parameters + StatusFilterEntries(onlyMedia, excludeReplies, excludeReblogs, pinned, filterByTaggedWith)))
  {
    var p := RangeToParameters(range);
    AppendStatusFilters(p, onlyMedia, excludeReplies, excludeReblogs, pinned, filterByTaggedWith);
    request := GetPageableMastodonRequest(ENDPOINT + "/" + accountId + "/statuses", GET, Some(p.entries));
  }

  /** The table of `getStatuses`' filters, in the order they are appended. */
  function StatusSlots(onlyMedia: bool, excludeReplies: bool, excludeReblogs: bool, pinned: bool,
                       tag: Option<string>): (slots: seq<Slot>)
    ensures SlotKeys(slots) == STATUS_FILTER_KEYS
  {
    [Slot(onlyMedia, Entry("only_media", Flag(true))), Slot(pinned, Entry("pinned", Flag(true))),
     Slot(excludeReplies, Entry("exclude_replies", Flag(true))),
     Slot(excludeReblogs, Entry("exclude_reblogs", Flag(true))),
     Slot(Tagged(tag), Entry("tagged", Text(tag.GetOr(""))))]
  }

  const STATUS_FILTER_KEYS := ["only_media", "pinned", "exclude_replies", "exclude_reblogs", "tagged"]

  lemma {:induction false} StatusFilterKeysDistinct()
    ensures Distinct(STATUS_FILTER_KEYS)
  {
    forall i, j | 0 <= i < j < 5 ensures STATUS_FILTER_KEYS[i] != STATUS_FILTER_KEYS[j] {
      assert STATUS_FILTER_KEYS[i][0] != STATUS_FILTER_KEYS[j][0] || |STATUS_FILTER_KEYS[i]| != |STATUS_FILTER_KEYS[j]|
          || STATUS_FILTER_KEYS[i][10] != STATUS_FILTER_KEYS[j][10];
    }
  }

  /** The written-out filter entries are the table's present entries. */
  lemma {:induction false} StatusFiltersPresent(onlyMedia: bool, excludeReplies: bool, excludeReblogs: bool, pinned: bool,
                                                tag: Option<string>)
    ensures StatusFilterEntries(onlyMedia, excludeReplies, excludeReblogs, pinned, tag)
         == Present(StatusSlots(onlyMedia, excludeReplies, excludeReblogs, pinned, tag))
  {
    var slots := StatusSlots(onlyMedia, excludeReplies, excludeReblogs, pinned, tag);
    assert slots[..0] == [];
    PresentStep(slots, 0);
    ghost var acc := Contribution(slots[0]);
    assert Present(slots[..1]) == acc;
    PresentStep(slots, 1); acc := acc + Contribution(slots[1]); assert Present(slots[..2]) == acc;
    PresentStep(slots, 2); acc := acc + Contribution(slots[2]); assert Present(slots[..3]) == acc;
    PresentStep(slots, 3); acc := acc + Contribution(slots[3]); assert Present(slots[..4]) == acc;
    PresentStep(slots, 4); acc := acc + Contribution(slots[4]); assert Present(slots[..5]) == acc;
    assert slots[..5] == slots;
  }

  /** The filters come in the fixed order only_media, pinned, exclude_replies, exclude_reblogs, tagged. */
  lemma {:induction false} StatusFilterOrder(onlyMedia: bool, excludeReplies: bool, excludeReblogs: bool, pinned: bool,
                                             tag: Option<string>)
    ensures SubsequenceOf(Keys(StatusFilterEntries(onlyMedia, excludeReplies, excludeReblogs, pinned, tag)), STATUS_FILTER_KEYS)
  {
    StatusFiltersPresent(onlyMedia, excludeReplies, excludeReblogs, pinned, tag);
    PresentInOrder(StatusSlots(onlyMedia, excludeReplies, excludeReblogs, pinned, tag));
  }

  /**
   * Each flag is sent exactly when it is set, with value true, and the tag exactly when it is
   * not blank.
   */
  lemma {:induction false} StatusFilterValues(onlyMedia: bool, excludeReplies: bool, excludeReblogs: bool, pinned: bool,
                                              tag: Option<string>)
    ensures var entries := StatusFilterEntries(onlyMedia, excludeReplies, excludeReblogs, pinned, tag);
      && Lookup(entries, "only_media") == (if onlyMedia then Some(Flag(true)) else None)
      && Lookup(entries, "pinned") == (if pinned then Some(Flag(true)) else None)
      && Lookup(entries, "exclude_replies") == (if excludeReplies then Some(Flag(true)) else None)
      && Lookup(entries, "exclude_reblogs") == (if excludeReblogs then Some(Flag(true)) else None)
      && Lookup(entries, "tagged") == (if Tagged(tag) then Some(Text(tag.value)) else None)
  {
    var slots := StatusSlots(onlyMedia, excludeReplies, excludeReblogs, pinned, tag);
    StatusFiltersPresent(onlyMedia, excludeReplies, excludeReblogs, pinned, tag);
    StatusFilterKeysDistinct();
    PresentLookup(slots, 0);
    PresentLookup(slots, 1);
    PresentLookup(slots, 2);
    PresentLookup(slots, 3);
    PresentLookup(slots, 4);
  }

  // followAccount.

  function FollowEntries(includeReblogs: Option<bool>, notifyOnStatus: Option<bool>, languages: Option<seq<string>>): seq<Entry> {
    Contribution(FlagSlot("reblogs", includeReblogs))
    + Contribution(FlagSlot("notify", notifyOnStatus))
    + Contribution(Slot(languages.Some? && |languages.value| > 0, Entry("languages", Items(languages.GetOr([])))))
  }

  /** `followAccount`: a POST on the account's "follow" endpoint. */
  method FollowAccount(accountId: string, includeReblogs: Option<bool> := None, notifyOnStatus: Option<bool> := None,
                       filterForLanguages: Option<seq<string>> := None)
    returns (request: MastodonRequest)
    ensures request == GetMastodonRequest(ENDPOINT + "/" + accountId + "/follow", POST,
      Some(FollowEntries(includeReblogs, notifyOnStatus, filterForLanguages)))
  {
    var p := new Parameters();
    p.AppendWhen(includeReblogs.Some?, "reblogs", Flag(includeReblogs.GetOr(false)));
    assert p.entries == Contribution(FlagSlot("reblogs", includeReblogs));
    p.AppendWhen(notifyOnStatus.Some?, "notify", Flag(notifyOnStatus.GetOr(false)));
    p.AppendWhen(filterForLanguages.Some? && |filterForLanguages.value| > 0, "languages", Items(filterForLanguages.GetOr([])));
    request := GetMastodonRequest(ENDPOINT + "/" + accountId + "/follow", POST, Some(p.entries));
  }

  /**
   * "reblogs" and "notify" carry the given value exactly when one is given; "languages" is sent,
   * as one list-valued entry, exactly for a non-empty list.
   */
  lemma {:induction false} FollowOptions(includeReblogs: Option<bool>, notifyOnStatus: Option<bool>, languages: Option<seq<string>>)
    ensures var entries := FollowEntries(includeReblogs, notifyOnStatus, languages);
      && Lookup(entries, "reblogs") == (if includeReblogs.Some? then Some(Flag(includeReblogs.value)) else None)
      && Lookup(entries, "notify") == (if notifyOnStatus.Some? then Some(Flag(notifyOnStatus.value)) else None)
      && Lookup(entries, "languages")
         == (if languages.Some? && |languages.value| > 0 then Some(Items(languages.value)) else None)
      && (languages == Some([]) ==> "languages" !in Keys(entries))
  {
  }

  // setPrivateNoteOnProfile.

  /** `setPrivateNoteOnProfile`: a null note sends no parameters at all, any other note one "comment" entry. */
  method SetPrivateNoteOnProfile(accountId: string, privateNote: Option<string>) returns (request: MastodonRequest)
    ensures request.endpoint == ENDPOINT + "/" + accountId + "/note" && request.verb == POST && request.shape == Single
    ensures privateNote.None? <==> request.parameters.None?
    ensures privateNote.Some? ==> request.parameters == Some([Entry("comment", Text(privateNote.value))])
  {
    var parameters: Option<seq<Entry>> := None;
    if privateNote.Some? {
      var p := new Parameters();
      var _ := p.Append("comment", Text(privateNote.value));
      assert p.entries == [Entry("comment", Text(privateNote.value))];
      parameters := Some(p.entries);
    }
    request := GetMastodonRequest(ENDPOINT + "/" + accountId + "/note", POST, parameters);
  }

  /**
   * A null note and an empty note differ on the wire: the first posts an empty form body, the
   * second a form with an empty "comment".
   */
  lemma {:induction false} NullNoteDiffersFromEmpty(instanceName: string, path: string)
    ensures CallRequest(instanceName, Dispatch(path, POST, None)).value.body == EmptyBody
    ensures CallRequest(instanceName, Dispatch(path, POST, Some([Entry("comment", Text(""))]))).value.body
         == FormBody(FORM_MEDIA_TYPE, [Entry("comment", Text(""))])
  {
  }
}
