/** The recruitment gate (`cogs/recruit_me.py`): who may open a private recruitment thread, and
    what the thread holds. */
module RecruitMe {
  import opened Wrappers
  import opened Text
  import opened Discord

  /** The `TNNT_DISCORDBOT_COGS_*` Django settings the cog reads. */
  datatype RecruitConfig = RecruitConfig(applicantRoleId: nat, recruiterRoleId: nat, leadershipRoleId: nat)

  /** A guild member: id, mention text and the ids of the roles held. */
  datatype Member = Member(id: nat, mention: string, roleIds: seq<nat>)

  /** Either open a ticket for `target`, or answer the invoker with an ephemeral refusal. */
  datatype Decision = OpenTicket(target: Member) | Refuse(message: string)

  predicate IsApplicant(cfg: RecruitConfig, m: Member)
  {
    cfg.applicantRoleId in m.roleIds
  }

  predicate IsRecruiter(cfg: RecruitConfig, m: Member)
  {
    cfg.recruiterRoleId in m.roleIds
  }

  const NotApplicantSelf :=
    "You are not in the Applicants group. Please open the [groups page](https://auth.terra-nanotech.de/groups/) and join the `TN-NT Applicant` group first …"

  const NotRecruiter := "You are not in the `TN-NT Recruiter` group and cannot use this command on this user …"

  function NotApplicantOther(target: Member): string
  {
    target.mention + " is not in the Applicants group …"
  }

  /** `/recruit_me`: a ticket for the invoker exactly when the invoker is an applicant. */
  function SlashRecruitMe(cfg: RecruitConfig, invoker: Member): (r: Decision)
    ensures r.OpenTicket? <==> IsApplicant(cfg, invoker)
    ensures r.OpenTicket? ==> r.target == invoker
    ensures r.Refuse? ==> r.message == NotApplicantSelf
  {
    if cfg.applicantRoleId !in invoker.roleIds then Refuse(NotApplicantSelf) else OpenTicket(invoker)
  }

  /** The rule both context commands apply: the target must be an applicant (checked first), and
      the invoker must be a recruiter or the target. */
  function ReverseRecruit(cfg: RecruitConfig, invoker: Member, target: Member): (r: Decision)
    ensures r.OpenTicket? <==> IsApplicant(cfg, target) && (IsRecruiter(cfg, invoker) || invoker.id == target.id)
    ensures r.OpenTicket? ==> r.target == target
    ensures !IsApplicant(cfg, target) ==> r == Refuse(NotApplicantOther(target))
    ensures IsApplicant(cfg, target) && !r.OpenTicket? ==> r == Refuse(NotRecruiter)
  {
    if cfg.applicantRoleId !in target.roleIds then Refuse(NotApplicantOther(target))
    else if cfg.recruiterRoleId in invoker.roleIds || invoker.id == target.id then OpenTicket(target)
    else Refuse(NotRecruiter)
  }

  /** The message whose author is the target of the message-context command. */
  datatype Message = Message(author: Member)

  /** "Create Recruitment Thread" on a message. */
  function MessageContextRecruit(cfg: RecruitConfig, invoker: Member, message: Message): (r: Decision)
    ensures r.OpenTicket? <==>
      IsApplicant(cfg, message.author) && (IsRecruiter(cfg, invoker) || invoker.id == message.author.id)
    ensures r.OpenTicket? ==> r.target == message.author
    ensures !IsApplicant(cfg, message.author) ==> r == Refuse(message.author.mention + " is not in the Applicants group …")
  {
    ReverseRecruit(cfg, invoker, message.author)
  }

  /** "Recruit Member" on a user. */
  function UserContextRecruit(cfg: RecruitConfig, invoker: Member, user: Member): (r: Decision)
    ensures r.OpenTicket? <==> IsApplicant(cfg, user) && (IsRecruiter(cfg, invoker) || invoker.id == user.id)
    ensures r.OpenTicket? ==> r.target == user
    ensures !IsApplicant(cfg, user) ==> r == Refuse(user.mention + " is not in the Applicants group …")
  {
    ReverseRecruit(cfg, invoker, user)
  }

  /** Pointing a context command at oneself gives the same decision to open as `/recruit_me`, and
      a recruiter can open a ticket for any applicant. */
  lemma SelfServiceAgrees(cfg: RecruitConfig, invoker: Member, target: Member)
    ensures ReverseRecruit(cfg, invoker, invoker).OpenTicket? <==> SlashRecruitMe(cfg, invoker).OpenTicket?
    ensures IsRecruiter(cfg, invoker) && IsApplicant(cfg, target) ==> ReverseRecruit(cfg, invoker, target) == OpenTicket(target)
  {
  }

  /** What `open_ticket` creates and sends. */
  datatype Ticket = Ticket(
    threadName: string,
    autoArchiveMinutes: nat,
    privateThread: bool,
    content: string,
    guide: Embed,
    confirmation: string)

  const GuideText :=
    "To add a person to this thread simply `@ping` them. This works with `@groups` as well to bulk add people to the channel. Use wisely, abuse will not be tolerated.\n\nThis is a beta feature if you experience issues please contact the admins. :heart:"

  /** `f"{main_character}"`: the main's name, `None` when there is none. */
  function MainText(mainCharacter: Option<string>): string
  {
    match mainCharacter
    case Some(n) => n
    case None => "None"
  }

  /** The thread, its opening message and the guide embed; `now` is the formatted time. */
  function OpenTicketFor(cfg: RecruitConfig, member: Member, mainCharacter: Option<string>, now: string): Ticket
  {
    Ticket(
      MainText(mainCharacter) + " | Recruitment | " + now,
      10080,
      true,
      "Dragging in: " + RoleMention(cfg.leadershipRoleId) + " and " + RoleMention(cfg.recruiterRoleId)
        + " …\n\nHello " + UserMention(member.id) + "! :wave:\n\nSomeone from the recruitment team will get in touch with you soon!",
      Embed("Private Thread Guide", Some(GuideText), DefaultColour, [], None),
      "Recruitment thread created!")
  }

  predicate Contains(s: string, t: string)
  {
    exists i, j :: 0 <= i <= j <= |s| && s[i..j] == t
  }

  lemma ContainsSuffix(a: string, t: string)
    ensures Contains(a + t, t)
  {
    assert (a + t)[|a|..|a| + |t|] == t;
  }

  lemma ContainsExtend(s: string, t: string, extra: string)
    requires Contains(s, t)
    ensures Contains(s + extra, t)
  {
    var i, j :| 0 <= i <= j <= |s| && s[i..j] == t;
    assert (s + extra)[i..j] == t;
  }

  /** The thread is private, archives after a week (10080 minutes), is named after the main, and
      its message pings the leadership role, the recruiter role and the member. */
  lemma TicketSpec(cfg: RecruitConfig, member: Member, mainCharacter: Option<string>, now: string)
    ensures var t := OpenTicketFor(cfg, member, mainCharacter, now);
      && t.privateThread && t.autoArchiveMinutes == 10080
      && t.threadName[..|MainText(mainCharacter)|] == MainText(mainCharacter)
      && Contains(t.content, RoleMention(cfg.leadershipRoleId))
      && Contains(t.content, RoleMention(cfg.recruiterRoleId))
      && Contains(t.content, UserMention(member.id))
  {
    var lead := RoleMention(cfg.leadershipRoleId);
    var rec := RoleMention(cfg.recruiterRoleId);
    var user := UserMention(member.id);
    var p1 := "Dragging in: " + lead;
    var p2 := p1 + " and " + rec;
    var p3 := p2 + " …\n\nHello " + user;
    ContainsSuffix("Dragging in: ", lead);
    ContainsExtend(p1, lead, " and ");
    ContainsExtend(p1 + " and ", lead, rec);
    ContainsSuffix(p1 + " and ", rec);
    ContainsExtend(p2, lead, " …\n\nHello ");
    ContainsExtend(p2, rec, " …\n\nHello ");
    ContainsExtend(p2 + " …\n\nHello ", lead, user);
    ContainsExtend(p2 + " …\n\nHello ", rec, user);
    ContainsSuffix(p2 + " …\n\nHello ", user);
    var rest := "! :wave:\n\nSomeone from the recruitment team will get in touch with you soon!";
    ContainsExtend(p3, lead, rest);
    ContainsExtend(p3, rec, rest);
    ContainsExtend(p3, user, rest);
  }
}
