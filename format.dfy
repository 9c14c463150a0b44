/** Formatting helpers of apps/web/src/lib/utils/format.ts whose logic is
    decidable: the currency table and its default, the sign rule of
    `formatPercentage`, and the bucket cascade of `formatRelativeTime`.
    Number, currency and date rendering by `Intl` and `toFixed` are inputs. */
module Format {
  import opened Seqs
  import opened Strings

  datatype Currency = INR | USD | EUR | GBP

  datatype CurrencyConfig = CurrencyConfig(locale: string, symbol: string)

  function Code(c: Currency): string
  {
    match c
    case INR => "INR"
    case USD => "USD"
    case EUR => "EUR"
    case GBP => "GBP"
  }

  /** The entry of `CURRENCY_CONFIG` for a supported currency. */
  function Config(c: Currency): CurrencyConfig
  {
    match c
    case INR => CurrencyConfig("en-IN", "\U{20B9}")
    case USD => CurrencyConfig("en-US", "$")
    case EUR => CurrencyConfig("de-DE", "\U{20AC}")
    case GBP => CurrencyConfig("en-GB", "\U{00A3}")
  }

  /** The supported currency a code names, if any. */
  function Parse(code: string): Option<Currency>
  {
    if code == "INR" then Some(INR)
    else if code == "USD" then Some(USD)
    else if code == "EUR" then Some(EUR)
    else if code == "GBP" then Some(GBP)
    else None
  }

  /** `Code` and `Parse` are inverse on the supported currencies. */
  lemma ParseCode(c: Currency, code: string)
    ensures Parse(Code(c)) == Some(c)
    ensures Parse(code).Some? ==> Code(Parse(code).value) == code
  {
  }

  /** The four symbols, and the four locales, are pairwise different. */
  lemma ConfigDistinct(c: Currency, d: Currency)
    ensures c != d ==> Config(c).symbol != Config(d).symbol && Config(c).locale != Config(d).locale
  {
  }

  /** `CURRENCY_CONFIG[code]`: `undefined` for a code outside the table. */
  function Lookup(code: string): Option<CurrencyConfig>
  {
    match Parse(code)
    case Some(c) => Some(Config(c))
    case None => None
  }

  /** `DEFAULT_CURRENCY`: the environment's value, unchecked, or 'INR' when
      it is unset or empty. */
  function DefaultCurrency(env: Option<string>): string
  {
    Or(env, "INR")
  }

  datatype ResolvedConfig = ResolvedConfig(currency: string, entry: Option<CurrencyConfig>)

  /** `getConfig(currency)`: the requested currency or the default, with its
      table entry spread in (nothing when the default names no entry). */
  function GetConfig(currency: Option<Currency>, env: Option<string>): (r: ResolvedConfig)
    ensures currency.Some? ==> r.currency == Code(currency.value) && r.entry == Some(Config(currency.value))
    ensures currency.None? ==> r.currency == DefaultCurrency(env)
    ensures r.entry.Some? <==> Parse(r.currency).Some?
  {
    var cur := if currency.Some? then Code(currency.value) else DefaultCurrency(env);
    ResolvedConfig(cur, Lookup(cur))
  }

  /** `getCurrencySymbol(currency)`; None stands for the `undefined` symbol
      of a default currency outside the table. */
  function GetCurrencySymbol(currency: Option<Currency>, env: Option<string>): (r: Option<string>)
    ensures currency == Some(INR) ==> r == Some("\U{20B9}")
    ensures currency == Some(USD) ==> r == Some("$")
    ensures currency == Some(EUR) ==> r == Some("\U{20AC}")
    ensures currency == Some(GBP) ==> r == Some("\U{00A3}")
    ensures currency.None? && (env.None? || env == Some("")) ==> r == Some("\U{20B9}")
    ensures currency.None? && env.Some? && env.value != "" ==>
      r == (if Parse(env.value).Some? then Some(Config(Parse(env.value).value).symbol) else None)
  {
    var cfg := GetConfig(currency, env);
    if cfg.entry.Some? then Some(cfg.entry.value.symbol) else None
  }

  /** `formatPercentage(value, decimals)`, given `fixed`, the text of
      `value.toFixed(decimals)`: a '+' is prefixed exactly when the value is
      not negative, and '%' is appended. */
  function FormatPercentage(value: real, fixed: string): (r: string)
    ensures |r| >= 1 && r[|r| - 1] == '%'
    ensures value >= 0.0 ==> |r| == |fixed| + 2 && r[0] == '+' && r[1..|r| - 1] == fixed
    ensures value < 0.0 ==> |r| == |fixed| + 1 && r[..|r| - 1] == fixed
  {
    (if value >= 0.0 then "+" else "") + fixed + "%"
  }

  const MinuteMs := 60000

  /** What `formatRelativeTime` shows; `OnDate` is the absolute date that
      `formatDate` renders. */
  datatype RelativeTime = JustNow | MinutesAgo(minutes: nat) | HoursAgo(hours: nat) | DaysAgo(days: nat) | OnDate

  /** `formatRelativeTime` on the elapsed time `diffMs` = now - then in
      milliseconds: `Math.floor` of a division by a positive divisor is
      Dafny's `/`. */
  function FormatRelativeTime(diffMs: int): (r: RelativeTime)
  {
    var diffMins := diffMs / MinuteMs;
    if diffMins < 1 then JustNow
    else if diffMins < 60 then MinutesAgo(diffMins)
    else
      var diffHours := diffMins / 60;
      if diffHours < 24 then HoursAgo(diffHours)
      else
        var diffDays := diffHours / 24;
        if diffDays < 30 then DaysAgo(diffDays)
        else OnDate
  }

  /** The buckets in milliseconds: each unit covers a fixed range of elapsed
      time, and the number shown is the elapsed time in that unit, rounded
      down. A difference of zero or less (a date in the future) is 'just now'. */
  lemma RelativeTimeBuckets(diffMs: int)
    ensures diffMs <= 0 ==> FormatRelativeTime(diffMs) == JustNow
    ensures FormatRelativeTime(diffMs) == JustNow <==> diffMs < 60000
    ensures 60000 <= diffMs < 3600000 ==> FormatRelativeTime(diffMs) == MinutesAgo(diffMs / 60000)
    ensures 3600000 <= diffMs < 86400000 ==> FormatRelativeTime(diffMs) == HoursAgo(diffMs / 3600000)
    ensures 86400000 <= diffMs < 2592000000 ==> FormatRelativeTime(diffMs) == DaysAgo(diffMs / 86400000)
    ensures FormatRelativeTime(diffMs) == OnDate <==> diffMs >= 2592000000
  {
  }

  /** Position of a bucket in the cascade, finest first. */
  function Unit(r: RelativeTime): nat
  {
    match r
    case JustNow => 0
    case MinutesAgo(_) => 1
    case HoursAgo(_) => 2
    case DaysAgo(_) => 3
    case OnDate => 4
  }

  /** The cascade is monotone: more elapsed time never selects a finer unit,
      and within one unit never a smaller number. */
  lemma RelativeTimeMonotone(d1: int, d2: int)
    requires d1 <= d2
    ensures Unit(FormatRelativeTime(d1)) <= Unit(FormatRelativeTime(d2))
    ensures FormatRelativeTime(d1).MinutesAgo? && FormatRelativeTime(d2).MinutesAgo? ==>
      FormatRelativeTime(d1).minutes <= FormatRelativeTime(d2).minutes
    ensures FormatRelativeTime(d1).HoursAgo? && FormatRelativeTime(d2).HoursAgo? ==>
      FormatRelativeTime(d1).hours <= FormatRelativeTime(d2).hours
    ensures FormatRelativeTime(d1).DaysAgo? && FormatRelativeTime(d2).DaysAgo? ==>
      FormatRelativeTime(d1).days <= FormatRelativeTime(d2).days
  {
    RelativeTimeBuckets(d1);
    RelativeTimeBuckets(d2);
  }

  /** The text shown for a bucket, given the rendered absolute date. */
  function RelativeTimeText(r: RelativeTime, date: string): string
  {
    match r
    case JustNow => "just now"
    case MinutesAgo(m) => NatToString(m) + "m ago"
    case HoursAgo(h) => NatToString(h) + "h ago"
    case DaysAgo(d) => NatToString(d) + "d ago"
    case OnDate => date
  }
}
