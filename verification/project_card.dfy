/**
 * The project card's derivations: metadata and mediums, which channel
 * panels show, the purpose medium default, and the truncated display of
 * the project ID and the WhatsApp access token.
 */
module ProjectCard {
  import opened Wrappers
  import opened Js
  import opened Text
  import opened ClientSlice

  /** `project.MetaData ? project.MetaData : null` (both branches of the inner test are the same value). */
  function Metadata(p: Project): (m: Option<MetaData>)
    ensures m.Some? ==> p.MetaData == m
    ensures m.None? <==> p.MetaData.None? || p.MetaData.value == MetaString("")
  {
    match p.MetaData
    case None => None
    case Some(MetaString(s)) => if s == "" then None else p.MetaData
    case Some(MetaObject(_, _)) => p.MetaData
  }

  /** `metadata?.mediums || []`: a string has no `mediums` field. */
  function Mediums(p: Project): (ms: seq<string>)
    ensures (Metadata(p).None? || Metadata(p).value.MetaString?) ==> ms == []
    ensures Metadata(p).Some? && Metadata(p).value.MetaObject? ==> ms == Metadata(p).value.mediums.OrElse([])
  {
    match Metadata(p)
    case Some(MetaObject(mediums, _)) => mediums.OrElse([])
    case _ => []
  }

  /** `metadata?.whatsapp`, when it is an object. */
  function WhatsAppConfigOf(p: Project): (c: Option<WhatsAppConfig>)
    ensures c.Some? <==> Metadata(p).Some? && Metadata(p).value.MetaObject? && Metadata(p).value.whatsapp.Val?
    ensures c.Some? ==> c.value == Metadata(p).value.whatsapp.v
  {
    match Metadata(p)
    case Some(MetaObject(_, w)) => if w.Val? then Some(w.v) else None
    case _ => None
  }

  /** Object metadata whose `mediums` list names `medium`. */
  predicate ListsMedium(p: Project, medium: string) {
    p.MetaData.Some? && p.MetaData.value.MetaObject?
    && p.MetaData.value.mediums.Val? && medium in p.MetaData.value.mediums.v
  }

  /** `mediums.includes("sms") || project.SenderId`: a sender id alone turns SMS on. */
  function HasSMS(p: Project): (b: bool)
    ensures b <==> ListsMedium(p, "sms") || p.SenderId != ""
  {
    "sms" in Mediums(p) || Truthy(p.SenderId)
  }

  /** `mediums.includes("whatsapp") || whatsappConfig`: either the listed medium or a configuration object. */
  function HasWhatsApp(p: Project): (b: bool)
    ensures b <==> ListsMedium(p, "whatsapp")
                   || (p.MetaData.Some? && p.MetaData.value.MetaObject? && p.MetaData.value.whatsapp.Val?)
  {
    "whatsapp" in Mediums(p) || WhatsAppConfigOf(p).Some?
  }

  /** Which channel badges and configuration panels the card shows. */
  datatype Panels = Panels(smsBadge: bool, whatsappBadge: bool, smsPanel: bool, whatsappPanel: bool)

  function ChannelPanels(p: Project): (r: Panels)
    ensures r.smsBadge == r.smsPanel == HasSMS(p)
    ensures r.whatsappBadge == HasWhatsApp(p)
    ensures r.whatsappPanel <==> WhatsAppConfigOf(p).Some?
    ensures r.whatsappPanel ==> r.whatsappBadge
  {
    var w := HasWhatsApp(p);
    Panels(HasSMS(p), w, HasSMS(p), w && WhatsAppConfigOf(p).Some?)
  }

  /** A project listing "whatsapp" without a configuration gets the WhatsApp badge but no WhatsApp panel. */
  lemma WhatsAppBadgeWithoutPanel(p: Project)
    requires ListsMedium(p, "whatsapp") && WhatsAppConfigOf(p).None?
    ensures ChannelPanels(p).whatsappBadge && !ChannelPanels(p).whatsappPanel
  {
  }

  /** String metadata names no medium: SMS then rests on the sender id alone, and WhatsApp is off. */
  lemma StringMetadataHasNoMediums(p: Project)
    requires p.MetaData.Some? && p.MetaData.value.MetaString?
    ensures Mediums(p) == [] && WhatsAppConfigOf(p).None?
    ensures HasSMS(p) <==> p.SenderId != ""
    ensures !HasWhatsApp(p)
  {
  }

  /** The project ID badge: its first 8 characters followed by "...". */
  function ProjectIdDisplay(p: Project): (s: string)
    ensures |s| == (if |p.ID| <= 8 then |p.ID| else 8) + 3
    ensures s[..|s| - 3] <= p.ID && s[|s| - 3..] == "..."
  {
    Ellipsize(p.ID, 8)
  }

  /** The access token: its first 20 characters and "...", or "Not configured" when absent or empty. */
  function AccessTokenDisplay(c: WhatsAppConfig): (s: string)
    ensures !TruthyJs(c.accessToken) ==> s == "Not configured"
    ensures TruthyJs(c.accessToken) ==>
      && |s| == (if |c.accessToken.v| <= 20 then |c.accessToken.v| else 20) + 3
      && s[..|s| - 3] <= c.accessToken.v && s[|s| - 3..] == "..."
  {
    if TruthyJs(c.accessToken) then Ellipsize(c.accessToken.v, 20) else "Not configured"
  }

  /** `purpose.MetaData?.medium || "sms"`. */
  function PurposeMedium(u: Purpose): (m: string)
    ensures m != ""
    ensures m != "sms" ==> u.MetaData.Val? && u.MetaData.v.PurposeMetaObject? && u.MetaData.v.medium == Val(m)
    ensures u.MetaData.Val? && u.MetaData.v.PurposeMetaObject? && TruthyJs(u.MetaData.v.medium) ==> m == u.MetaData.v.medium.v
    ensures !(u.MetaData.Val? && u.MetaData.v.PurposeMetaObject? && TruthyJs(u.MetaData.v.medium)) ==> m == "sms"
  {
    match u.MetaData
    case Val(PurposeMetaObject(medium)) => if TruthyJs(medium) then medium.v else "sms"
    case _ => "sms"
  }

  datatype MediumStyle = SmsMedium | WhatsAppMedium

  /** Anything other than exactly "sms" is styled as WhatsApp. */
  function PurposeStyle(u: Purpose): (st: MediumStyle)
    ensures st == SmsMedium <==> PurposeMedium(u) == "sms"
  {
    if PurposeMedium(u) == "sms" then SmsMedium else WhatsAppMedium
  }

  /** The purposes section: shown exactly when there is a purpose; its label counts them. */
  function PurposesSection(p: Project): (r: Option<nat>)
    ensures r.Some? <==> p.purposes != []
    ensures r.Some? ==> r.value == |p.purposes|
  {
    if |p.purposes| > 0 then Some(|p.purposes|) else None
  }

  /** A purpose without usable metadata is an SMS purpose. */
  lemma PurposeMediumDefault(u: Purpose)
    requires u.MetaData.Nullish() || u.MetaData.v.PurposeMetaString?
    ensures PurposeMedium(u) == "sms" && PurposeStyle(u) == SmsMedium
  {
  }
}
