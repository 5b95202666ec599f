/** `models/setting.py`: the singleton `Setting` record, its `Field` keys and `get_setting`. */
module Settings {
  import opened Wrappers

  /** The members of `Setting.Field`. */
  datatype FieldKey =
    | ApplicantRoleName
    | ApplicantRoleId
    | RecruitingChannel
    | RecruiterRoleId
    | LeadershipRoleId
    | WelcomeChannelAuthenticated
    | WelcomeChannelUnauthenticated
    | WelcomeRolesExcluded
    | LookupChannels

  const AllKeys: seq<FieldKey> := [
    ApplicantRoleName, ApplicantRoleId, RecruitingChannel, RecruiterRoleId, LeadershipRoleId,
    WelcomeChannelAuthenticated, WelcomeChannelUnauthenticated, WelcomeRolesExcluded, LookupChannels
  ]

  /** The value of an enum member: the name of the model field it stands for. */
  function KeyValue(k: FieldKey): string
  {
    match k
    case ApplicantRoleName => "applicant_role_name"
    case ApplicantRoleId => "applicant_role_id"
    case RecruitingChannel => "recruiting_channel"
    case RecruiterRoleId => "recruiter_role_id"
    case LeadershipRoleId => "leadership_role_id"
    case WelcomeChannelAuthenticated => "welcome_channel_authenticated"
    case WelcomeChannelUnauthenticated => "welcome_channel_unauthenticated"
    case WelcomeRolesExcluded => "welcome_roles_excluded"
    case LookupChannels => "lookup_channels"
  }

  /** The Python name of an enum member, as written after `Setting.Field.`. */
  function MemberName(k: FieldKey): string
  {
    match k
    case ApplicantRoleName => "APPLICANT_ROLE_NAME"
    case ApplicantRoleId => "APPLICANT_ROLE_ID"
    case RecruitingChannel => "RECRUITING_CHANNEL"
    case RecruiterRoleId => "RECRUITER_ROLE_ID"
    case LeadershipRoleId => "LEADERSHIP_ROLE_ID"
    case WelcomeChannelAuthenticated => "WELCOME_CHANNEL_AUTHENTICATED"
    case WelcomeChannelUnauthenticated => "WELCOME_CHANNEL_UNAUTHENTICATED"
    case WelcomeRolesExcluded => "WELCOME_ROLES_EXCLUDED"
    case LookupChannels => "LOOKUP_CHANNELS"
  }

  /** `Setting.Field.<name>`: an attribute lookup on the enum class, which raises `AttributeError`
      for a name that is not a member. */
  function FieldByMember(name: string): (r: Result<FieldKey>)
    ensures r.Failure? ==> forall k :: MemberName(k) != name
    ensures r.Success? ==> MemberName(r.value) == name
    ensures r.Failure? ==> r.error == "AttributeError: " + name
  {
    if name == "APPLICANT_ROLE_NAME" then Success(ApplicantRoleName)
    else if name == "APPLICANT_ROLE_ID" then Success(ApplicantRoleId)
    else if name == "RECRUITING_CHANNEL" then Success(RecruitingChannel)
    else if name == "RECRUITER_ROLE_ID" then Success(RecruiterRoleId)
    else if name == "LEADERSHIP_ROLE_ID" then Success(LeadershipRoleId)
    else if name == "WELCOME_CHANNEL_AUTHENTICATED" then Success(WelcomeChannelAuthenticated)
    else if name == "WELCOME_CHANNEL_UNAUTHENTICATED" then Success(WelcomeChannelUnauthenticated)
    else if name == "WELCOME_ROLES_EXCLUDED" then Success(WelcomeRolesExcluded)
    else if name == "LOOKUP_CHANNELS" then Success(LookupChannels)
    else Failure("AttributeError: " + name)
  }

  /** The field a key string names, if any (what `getattr` resolves among the model fields). */
  function KeyFromValue(key: string): (r: Option<FieldKey>)
    ensures r.None? ==> forall k :: KeyValue(k) != key
    ensures r.Some? ==> KeyValue(r.value) == key
  {
    if key == "applicant_role_name" then Some(ApplicantRoleName)
    else if key == "applicant_role_id" then Some(ApplicantRoleId)
    else if key == "recruiting_channel" then Some(RecruitingChannel)
    else if key == "recruiter_role_id" then Some(RecruiterRoleId)
    else if key == "leadership_role_id" then Some(LeadershipRoleId)
    else if key == "welcome_channel_authenticated" then Some(WelcomeChannelAuthenticated)
    else if key == "welcome_channel_unauthenticated" then Some(WelcomeChannelUnauthenticated)
    else if key == "welcome_roles_excluded" then Some(WelcomeRolesExcluded)
    else if key == "lookup_channels" then Some(LookupChannels)
    else None
  }

  /** A field's value: text, a nullable role id, a nullable reference to a `Channels` row
      (by its Discord channel id), or the ids of the rows in a many-to-many relation. */
  datatype Value =
    | Text(text: string)
    | RoleId(id: Option<nat>)
    | ChannelRef(channel: Option<nat>)
    | ChannelSet(channels: seq<nat>)

  /** The one row of the `Setting` table. */
  datatype Setting = Setting(
    applicantRoleName: string,
    applicantRoleId: Option<nat>,
    recruitingChannel: Option<nat>,
    recruiterRoleId: Option<nat>,
    leadershipRoleId: Option<nat>,
    welcomeChannelAuthenticated: Option<nat>,
    welcomeChannelUnauthenticated: Option<nat>,
    welcomeRolesExcluded: string,
    lookupChannels: seq<nat>)

  /** The row `get_solo()` creates on first access: every field at its declared default. */
  function Defaults(): Setting
  {
    Setting("", None, None, None, None, None, None, "Member", [])
  }

  function ValueOf(s: Setting, k: FieldKey): Value
  {
    match k
    case ApplicantRoleName => Text(s.applicantRoleName)
    case ApplicantRoleId => RoleId(s.applicantRoleId)
    case RecruitingChannel => ChannelRef(s.recruitingChannel)
    case RecruiterRoleId => RoleId(s.recruiterRoleId)
    case LeadershipRoleId => RoleId(s.leadershipRoleId)
    case WelcomeChannelAuthenticated => ChannelRef(s.welcomeChannelAuthenticated)
    case WelcomeChannelUnauthenticated => ChannelRef(s.welcomeChannelUnauthenticated)
    case WelcomeRolesExcluded => Text(s.welcomeRolesExcluded)
    case LookupChannels => ChannelSet(s.lookupChannels)
  }

  /** The message of the `KeyError` raised for an unknown key. */
  function MissingKeyMessage(key: string): string
  {
    "Setting key '" + key + "' does not exist."
  }

  /** `Setting.get_setting(key)` on the current row `s`. */
  function GetSetting(s: Setting, key: string): (r: Result<Value>)
    ensures r.Failure? <==> forall k :: KeyValue(k) != key
    ensures r.Failure? ==> r.error == MissingKeyMessage(key)
  {
    match KeyFromValue(key)
    case Some(k) => Success(ValueOf(s, k))
    case None => Failure(MissingKeyMessage(key))
  }

  /** Whether `v` has the type of field `k`. */
  predicate WellTyped(k: FieldKey, v: Value)
  {
    match k
    case ApplicantRoleName => v.Text?
    case WelcomeRolesExcluded => v.Text?
    case ApplicantRoleId => v.RoleId?
    case RecruiterRoleId => v.RoleId?
    case LeadershipRoleId => v.RoleId?
    case RecruitingChannel => v.ChannelRef?
    case WelcomeChannelAuthenticated => v.ChannelRef?
    case WelcomeChannelUnauthenticated => v.ChannelRef?
    case LookupChannels => v.ChannelSet?
  }

  /** `setattr(setting, k, v)`: the row with one field replaced. */
  function With(s: Setting, k: FieldKey, v: Value): Setting
    requires WellTyped(k, v)
  {
    match k
    case ApplicantRoleName => s.(applicantRoleName := v.text)
    case ApplicantRoleId => s.(applicantRoleId := v.id)
    case RecruitingChannel => s.(recruitingChannel := v.channel)
    case RecruiterRoleId => s.(recruiterRoleId := v.id)
    case LeadershipRoleId => s.(leadershipRoleId := v.id)
    case WelcomeChannelAuthenticated => s.(welcomeChannelAuthenticated := v.channel)
    case WelcomeChannelUnauthenticated => s.(welcomeChannelUnauthenticated := v.channel)
    case WelcomeRolesExcluded => s.(welcomeRolesExcluded := v.text)
    case LookupChannels => s.(lookupChannels := v.channels)
  }

  function ClearRef(r: Option<nat>, channel: nat): Option<nat>
  {
    if r == Some(channel) then None else r
  }

  function RemoveAll(ids: seq<nat>, channel: nat): (r: seq<nat>)
    ensures channel !in r
    ensures forall c :: c in r <==> c in ids && c != channel
  {
    if |ids| == 0 then []
    else (if ids[0] == channel then [] else [ids[0]]) + RemoveAll(ids[1..], channel)
  }

  /** What deleting the `Channels` row of `channel` does to the setting row: every foreign key to it
      becomes `None` (`on_delete=SET_NULL`) and it leaves the many-to-many set. */
  function OnChannelDeleted(s: Setting, channel: nat): Setting
  {
    s.(recruitingChannel := ClearRef(s.recruitingChannel, channel),
       welcomeChannelAuthenticated := ClearRef(s.welcomeChannelAuthenticated, channel),
       welcomeChannelUnauthenticated := ClearRef(s.welcomeChannelUnauthenticated, channel),
       lookupChannels := RemoveAll(s.lookupChannels, channel))
  }

  /** `str(setting)` */
  function ToString(s: Setting): (r: string)
    ensures r == "Settings"
  {
    "Settings"
  }

  /** `get_setting(key).all()`: the channel ids of the many-to-many field `k`; on any other kind
      of value `.all()` is not an attribute. */
  function ChannelIds(s: Setting, k: FieldKey): (r: Result<seq<nat>>)
    ensures k == LookupChannels ==> r == Success(s.lookupChannels)
  {
    GetSettingOfFieldKey(s, k);
    match GetSetting(s, KeyValue(k))
    case Success(v) => if v.ChannelSet? then Success(v.channels) else Failure("AttributeError: all")
    case Failure(e) => Failure(e)
  }

  /** Every `Field` member names a model field, so `get_setting` never raises for an enum key,
      and returns that field's current value. */
  lemma GetSettingOfFieldKey(s: Setting, k: FieldKey)
    ensures GetSetting(s, KeyValue(k)) == Success(ValueOf(s, k))
  {
    assert KeyFromValue(KeyValue(k)) == Some(k) by {
      match k
      case ApplicantRoleName =>
      case ApplicantRoleId =>
      case RecruitingChannel =>
      case RecruiterRoleId =>
      case LeadershipRoleId =>
      case WelcomeChannelAuthenticated =>
      case WelcomeChannelUnauthenticated =>
      case WelcomeRolesExcluded =>
      case LookupChannels =>
    }
  }

  /** Distinct keys name distinct fields. */
  lemma KeyValueInjective(a: FieldKey, b: FieldKey)
    requires KeyValue(a) == KeyValue(b)
    ensures a == b
  {
  }

  /** Writing a field and reading it back gives the written value; every other field reads as before. */
  lemma WriteThenRead(s: Setting, k: FieldKey, v: Value, other: FieldKey)
    requires WellTyped(k, v)
    ensures GetSetting(With(s, k, v), KeyValue(k)) == Success(v)
    ensures other != k ==> GetSetting(With(s, k, v), KeyValue(other)) == GetSetting(s, KeyValue(other))
  {
    GetSettingOfFieldKey(With(s, k, v), k);
    GetSettingOfFieldKey(With(s, k, v), other);
    GetSettingOfFieldKey(s, other);
  }

  /** The defaults, read through `get_setting`: an empty applicant role name, "Member" as the
      excluded welcome role (`DefaultTexts`), no role ids (`DefaultRoles`), no channel references
      and no lookup channels (`DefaultChannels`). */
  lemma DefaultValues()
    ensures GetSetting(Defaults(), KeyValue(ApplicantRoleName)) == Success(Text(""))
    ensures GetSetting(Defaults(), KeyValue(WelcomeRolesExcluded)) == Success(Text("Member"))
    ensures GetSetting(Defaults(), KeyValue(ApplicantRoleId)) == Success(RoleId(None))
    ensures GetSetting(Defaults(), KeyValue(RecruiterRoleId)) == Success(RoleId(None))
    ensures GetSetting(Defaults(), KeyValue(LeadershipRoleId)) == Success(RoleId(None))
    ensures GetSetting(Defaults(), KeyValue(RecruitingChannel)) == Success(ChannelRef(None))
    ensures GetSetting(Defaults(), KeyValue(WelcomeChannelAuthenticated)) == Success(ChannelRef(None))
    ensures GetSetting(Defaults(), KeyValue(WelcomeChannelUnauthenticated)) == Success(ChannelRef(None))
    ensures GetSetting(Defaults(), KeyValue(LookupChannels)) == Success(ChannelSet([]))
  {
    DefaultTexts();
    DefaultRoles();
    DefaultChannels();
  }

  lemma DefaultTexts()
    ensures GetSetting(Defaults(), KeyValue(ApplicantRoleName)) == Success(Text(""))
    ensures GetSetting(Defaults(), KeyValue(WelcomeRolesExcluded)) == Success(Text("Member"))
  {
    GetSettingOfFieldKey(Defaults(), ApplicantRoleName);
    GetSettingOfFieldKey(Defaults(), WelcomeRolesExcluded);
  }

  lemma DefaultRoles()
    ensures GetSetting(Defaults(), KeyValue(ApplicantRoleId)) == Success(RoleId(None))
    ensures GetSetting(Defaults(), KeyValue(RecruiterRoleId)) == Success(RoleId(None))
    ensures GetSetting(Defaults(), KeyValue(LeadershipRoleId)) == Success(RoleId(None))
  {
    GetSettingOfFieldKey(Defaults(), ApplicantRoleId);
    GetSettingOfFieldKey(Defaults(), RecruiterRoleId);
    GetSettingOfFieldKey(Defaults(), LeadershipRoleId);
  }

  lemma DefaultChannels()
    ensures GetSetting(Defaults(), KeyValue(RecruitingChannel)) == Success(ChannelRef(None))
    ensures GetSetting(Defaults(), KeyValue(WelcomeChannelAuthenticated)) == Success(ChannelRef(None))
    ensures GetSetting(Defaults(), KeyValue(WelcomeChannelUnauthenticated)) == Success(ChannelRef(None))
    ensures GetSetting(Defaults(), KeyValue(LookupChannels)) == Success(ChannelSet([]))
  {
    GetSettingOfFieldKey(Defaults(), RecruitingChannel);
    GetSettingOfFieldKey(Defaults(), WelcomeChannelAuthenticated);
    GetSettingOfFieldKey(Defaults(), WelcomeChannelUnauthenticated);
    GetSettingOfFieldKey(Defaults(), LookupChannels);
  }

  /** After a channel is deleted no setting refers to it; references to other channels, the other
      lookup channels and the text and role fields stay. */
  lemma ChannelDeletionNullsReferences(s: Setting, channel: nat)
    ensures var t := OnChannelDeleted(s, channel);
      && t.recruitingChannel != Some(channel)
      && t.welcomeChannelAuthenticated != Some(channel)
      && t.welcomeChannelUnauthenticated != Some(channel)
      && channel !in t.lookupChannels
      && (s.recruitingChannel != Some(channel) ==> t.recruitingChannel == s.recruitingChannel)
      && (s.welcomeChannelAuthenticated != Some(channel) ==> t.welcomeChannelAuthenticated == s.welcomeChannelAuthenticated)
      && (s.welcomeChannelUnauthenticated != Some(channel) ==> t.welcomeChannelUnauthenticated == s.welcomeChannelUnauthenticated)
      && (forall c :: c in t.lookupChannels <==> c in s.lookupChannels && c != channel)
      && t.applicantRoleName == s.applicantRoleName
      && t.welcomeRolesExcluded == s.welcomeRolesExcluded
      && t.applicantRoleId == s.applicantRoleId
      && t.recruiterRoleId == s.recruiterRoleId
      && t.leadershipRoleId == s.leadershipRoleId
  {
  }

  /** The singleton: one `Setting` row, read and changed in place and saved. */
  class SettingStore {
    var current: Setting

    /** `Setting.get_solo()` on an empty table creates the row with its defaults. */
    constructor ()
      ensures current == Defaults()
    {
      current := Defaults();
    }

    /** `Setting.get_setting(key)` */
    method Get(key: string) returns (r: Result<Value>)
      ensures r == GetSetting(current, key)
    {
      var k := KeyFromValue(key);
      if k.Some? {
        r := Success(ValueOf(current, k.value));
      } else {
        r := Failure(MissingKeyMessage(key));
      }
    }

    /** `setting.<field> = v; setting.save()` */
    method Write(k: FieldKey, v: Value)
      requires WellTyped(k, v)
      modifies this
      ensures current == With(old(current), k, v)
    {
      current := With(current, k, v);
    }

    /** The database's reaction on this row to deleting the `Channels` row of `channel`. */
    method ChannelDeleted(channel: nat)
      modifies this
      ensures current == OnChannelDeleted(old(current), channel)
    {
      current := OnChannelDeleted(current, channel);
    }
  }
}
