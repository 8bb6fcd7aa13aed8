/**
 * The per-channel usage bars: each channel's guarded percentage, its
 * visibility, and the heights of its quota and used bars.
 */
module UsageChart {
  import QuotaChart

  datatype ChannelUsage = ChannelUsage(used: int, total: int)

  datatype UsageData = UsageData(sms: ChannelUsage, whatsapp: ChannelUsage)

  /** One channel's bar pair: shown or not, the quota bar's height and the used bar's height (percent). */
  datatype Bar = Bar(visible: bool, quotaHeight: real, usedHeight: real, percentage: real)

  /** The bar for one channel's usage. */
  function ChannelBar(u: ChannelUsage): (b: Bar)
    ensures b.visible <==> u.total > 0
    ensures b.quotaHeight == 100.0
    ensures b.usedHeight == b.percentage
    ensures u.total <= 0 ==> b.percentage == 0.0
    ensures u.total > 0 ==> b.percentage * (u.total as real) == 100.0 * (u.used as real)
  {
    var pct := if u.total > 0 then (u.used as real / u.total as real) * 100.0 else 0.0;
    Bar(u.total > 0, 100.0, pct, pct)
  }

  datatype UsageView = UsageView(sms: Bar, whatsapp: Bar)

  /** Both channels' bars; a channel without quota shows no bar. */
  function Render(d: UsageData): (v: UsageView)
    ensures v.sms.visible <==> d.sms.total > 0
    ensures v.whatsapp.visible <==> d.whatsapp.total > 0
    ensures v.sms.percentage == QuotaChart.Percentage(d.sms.used, d.sms.total)
    ensures v.whatsapp.percentage == QuotaChart.Percentage(d.whatsapp.used, d.whatsapp.total)
  {
    ChannelPercentageIsGuarded(d.sms);
    ChannelPercentageIsGuarded(d.whatsapp);
    UsageView(ChannelBar(d.sms), ChannelBar(d.whatsapp))
  }

  /** Each channel's percentage is the quota ring's guarded percentage of that channel's numbers. */
  lemma ChannelPercentageIsGuarded(u: ChannelUsage)
    ensures ChannelBar(u).percentage == QuotaChart.Percentage(u.used, u.total)
  {
  }

  /** The WhatsApp bar depends only on WhatsApp data, and the SMS bar only on SMS data. */
  lemma ChannelsIndependent(d1: UsageData, d2: UsageData)
    ensures d1.whatsapp == d2.whatsapp ==> Render(d1).whatsapp == Render(d2).whatsapp
    ensures d1.sms == d2.sms ==> Render(d1).sms == Render(d2).sms
  {
  }
}
