/**
 * The membership card's derived values: usage percentage (unguarded, with
 * JavaScript's division-by-zero results), days remaining, the expiring
 * flag, remaining quota, status and channel styling, and the bar colour.
 * Times are integer milliseconds; `now` is a parameter.
 */
module MembershipCard {
  import opened Wrappers
  import opened Js
  import opened Text
  import ClientSlice
  import QuotaChart

  type Membership = ClientSlice.Membership

  const MsPerDay: int := 1000 * 60 * 60 * 24

  /** `Math.ceil(x / d)` for a positive divisor, on exact integers. */
  function CeilDiv(x: int, d: int): (r: int)
    requires d > 0
    ensures (r - 1) * d < x <= r * d
  {
    -((-x) / d)
  }

  /** `Math.ceil((validTill - now) / msPerDay)`: rounds toward +infinity, also for past dates. */
  function DaysRemaining(validTill: int, now: int): (r: int)
    ensures (r - 1) * MsPerDay < validTill - now <= r * MsPerDay
  {
    CeilDiv(validTill - now, MsPerDay)
  }

  /** `(QuotaUsed / QuotaTotal) * 100`, with no zero-total guard. */
  function QuotaPercentage(m: Membership): (p: Num)
    ensures m.QuotaTotal > 0 ==> p == Finite(QuotaChart.Percentage(m.QuotaUsed, m.QuotaTotal))
    ensures m.QuotaTotal != 0 ==> p.Finite? && p.r * (m.QuotaTotal as real) == 100.0 * (m.QuotaUsed as real)
    ensures m.QuotaTotal == 0 && m.QuotaUsed > 0 ==> p == PosInf
    ensures m.QuotaTotal == 0 && m.QuotaUsed == 0 ==> p == NaN
    ensures m.QuotaTotal == 0 && m.QuotaUsed < 0 ==> p == NegInf
  {
    Scale(Div(m.QuotaUsed, m.QuotaTotal), 100.0)
  }

  /** `daysRemaining <= 7 || quotaPercentage >= 90`, both bounds inclusive. */
  function IsExpiring(m: Membership, now: int): (b: bool)
    ensures DaysRemaining(m.ValidTill, now) <= 7 ==> b
    ensures m.QuotaTotal > 0 ==>
      (b <==> DaysRemaining(m.ValidTill, now) <= 7 || QuotaChart.Percentage(m.QuotaUsed, m.QuotaTotal) >= 90.0)
    ensures m.QuotaTotal == 0 ==> (b <==> DaysRemaining(m.ValidTill, now) <= 7 || m.QuotaUsed > 0)
  {
    DaysRemaining(m.ValidTill, now) <= 7 || AtLeast(QuotaPercentage(m), 90.0)
  }

  /** `QuotaTotal - QuotaUsed`, not clamped at zero. */
  function RemainingQuota(m: Membership): (r: int)
    ensures r == QuotaChart.Remaining(m.QuotaUsed, m.QuotaTotal)
    ensures r < 0 <==> m.QuotaUsed > m.QuotaTotal
  {
    m.QuotaTotal - m.QuotaUsed
  }

  datatype ChannelStyle = SmsStyle | WhatsAppStyle

  /** SMS styling exactly when the plan's channel lower-cases to "sms"; anything else, a missing plan included, is WhatsApp. */
  function Channel(m: Membership): (c: ChannelStyle)
    ensures c == SmsStyle <==> m.Plan.Some? && Lower(m.Plan.value.Channel) == "sms"
  {
    if m.Plan.Some? && Lower(m.Plan.value.Channel) == "sms" then SmsStyle else WhatsAppStyle
  }

  /** The status badge is green exactly when the status lower-cases to "active". */
  function StatusActive(m: Membership): (b: bool)
    ensures b <==> |m.Status| == 6 && forall i :: 0 <= i < 6 ==> LowerChar(m.Status[i]) == "active"[i]
  {
    Lower(m.Status) == "active"
  }

  /** The usage bar's colour: red from 90%, yellow from 70%, the channel's colour below. */
  datatype BarTier = Danger | Warning | ChannelColour(channel: ChannelStyle)

  function Tier(p: Num, channel: ChannelStyle): (t: BarTier)
    ensures t == Danger <==> AtLeast(p, 90.0)
    ensures t == Warning <==> !AtLeast(p, 90.0) && AtLeast(p, 70.0)
    ensures t.ChannelColour? <==> !AtLeast(p, 70.0)
    ensures t.ChannelColour? ==> t.channel == channel
  {
    if AtLeast(p, 90.0) then Danger else if AtLeast(p, 70.0) then Warning else ChannelColour(channel)
  }

  function Rank(t: BarTier): nat {
    match t
    case Danger => 2
    case Warning => 1
    case ChannelColour(_) => 0
  }

  /** The tier never drops as the percentage rises. */
  lemma TierMonotone(p: real, q: real, channel: ChannelStyle)
    requires p <= q
    ensures Rank(Tier(Finite(p), channel)) <= Rank(Tier(Finite(q), channel))
  {
  }

  /** Everything the card derives from one membership at time `now`. */
  datatype CardView = CardView(
    percentage: Num,
    daysRemaining: int,
    expiring: bool,
    remaining: int,
    statusActive: bool,
    channel: ChannelStyle,
    tier: BarTier,
    warnBorder: bool,
    warnDays: bool,
    showRenew: bool)

  function Render(m: Membership, now: int): (v: CardView)
    ensures v.percentage == QuotaPercentage(m)
    ensures v.daysRemaining == DaysRemaining(m.ValidTill, now)
    ensures v.channel == Channel(m)
    ensures v.tier == Tier(v.percentage, v.channel)
    ensures v.showRenew <==> IsExpiring(m, now)
    ensures v.showRenew == v.expiring == v.warnBorder
    ensures v.expiring <==> v.daysRemaining <= 7 || AtLeast(v.percentage, 90.0)
    ensures v.warnDays <==> v.daysRemaining <= 7
    ensures v.tier == Danger ==> v.expiring
    ensures v.statusActive <==> Lower(m.Status) == "active"
    ensures v.remaining == m.QuotaTotal - m.QuotaUsed
  {
    var p := QuotaPercentage(m);
    var d := DaysRemaining(m.ValidTill, now);
    var e := IsExpiring(m, now);
    CardView(p, d, e, RemainingQuota(m), StatusActive(m), Channel(m), Tier(p, Channel(m)), e, d <= 7, e)
  }

  /** With a positive total, the expiring flag is a pure integer test. */
  lemma ExpiringCrossMultiplied(m: Membership, now: int)
    requires m.QuotaTotal > 0
    ensures IsExpiring(m, now) <==> DaysRemaining(m.ValidTill, now) <= 7 || 100 * m.QuotaUsed >= 90 * m.QuotaTotal
  {
    QuotaChart.PercentageAtLeast(m.QuotaUsed, m.QuotaTotal, 90.0);
  }

  /** Both bounds are inclusive: exactly seven days left, or exactly 90% used, is expiring. */
  lemma ExpiringBoundaries(m: Membership, now: int)
    requires DaysRemaining(m.ValidTill, now) == 7 || (m.QuotaTotal > 0 && 10 * m.QuotaUsed == 9 * m.QuotaTotal)
    ensures IsExpiring(m, now)
  {
    if m.QuotaTotal > 0 {
      ExpiringCrossMultiplied(m, now);
    }
  }

  /** 90 of 100 used with 30 days left: 10 remain, 90% used, and the card asks for renewal. */
  lemma NinetyPercentExample(now: int)
    ensures
      var plan := ClientSlice.Plan("pl", "SMS Basic", "sms", 100, 30);
      var m := ClientSlice.Membership("m", "c", "pl", 90, 100, now + 30 * MsPerDay, "active", Some(plan));
      && RemainingQuota(m) == 10
      && QuotaPercentage(m) == Finite(90.0)
      && DaysRemaining(m.ValidTill, now) == 30
      && Render(m, now).showRenew
  {
    var plan := ClientSlice.Plan("pl", "SMS Basic", "sms", 100, 30);
    var m := ClientSlice.Membership("m", "c", "pl", 90, 100, now + 30 * MsPerDay, "active", Some(plan));
    ExpiringCrossMultiplied(m, now);
  }

  /**
   * With a zero total the unguarded percentage is not a number of percent:
   * 5 of 0 used is +Infinity (expiring whatever the date), 0 of 0 is NaN
   * (never expiring on quota, bar in the channel colour).
   */
  lemma ZeroTotalPercentage(m: Membership, now: int)
    requires m.QuotaTotal == 0 && DaysRemaining(m.ValidTill, now) > 7
    ensures m.QuotaUsed > 0 ==> QuotaPercentage(m) == PosInf && IsExpiring(m, now)
    ensures m.QuotaUsed == 0 ==>
      && QuotaPercentage(m) == NaN
      && !IsExpiring(m, now)
      && Tier(QuotaPercentage(m), Channel(m)).ChannelColour?
  {
  }

  /** The percentage with the quota ring's zero-total guard. */
  function GuardedQuotaPercentage(m: Membership): (p: real)
    ensures m.QuotaTotal <= 0 ==> p == 0.0
    ensures m.QuotaTotal > 0 ==> Finite(p) == QuotaPercentage(m)
    ensures 0 <= m.QuotaUsed <= m.QuotaTotal ==> 0.0 <= p <= 100.0
  {
    if 0 <= m.QuotaUsed <= m.QuotaTotal && m.QuotaTotal > 0 then
      QuotaChart.PercentageBounds(m.QuotaUsed, m.QuotaTotal);
      QuotaChart.Percentage(m.QuotaUsed, m.QuotaTotal)
    else
      QuotaChart.Percentage(m.QuotaUsed, m.QuotaTotal)
  }

  /** The expiring flag over the guarded percentage. */
  predicate IsExpiringGuarded(m: Membership, now: int) {
    DaysRemaining(m.ValidTill, now) <= 7 || GuardedQuotaPercentage(m) >= 90.0
  }

  /** The guarded flag agrees with the card wherever the total is positive, and never depends on a NaN or an infinity. */
  lemma GuardedExpiringAgrees(m: Membership, now: int)
    ensures m.QuotaTotal > 0 ==> (IsExpiringGuarded(m, now) <==> IsExpiring(m, now))
    ensures m.QuotaTotal <= 0 ==> (IsExpiringGuarded(m, now) <==> DaysRemaining(m.ValidTill, now) <= 7)
  {
  }
}
