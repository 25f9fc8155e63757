/**
 * Long-stay quotes and draft bookings. Prices are in paise; the room line, the tax and the savings
 * are whole rupees, rounded as `Math.round` does (halves up).
 */
module Colive {
  import opened Wrappers

  datatype PricingModel = PerMonth | OneTime

  datatype Addon = Addon(
    id: string, name: string, pricingModel: PricingModel, unitPrice: nat, maxQuantity: Option<nat>, available: bool)

  datatype AddonInput = AddonInput(id: string, quantity: nat)

  datatype AddonLine = AddonLine(id: string, name: string, quantity: nat, unitPrice: nat, lineTotal: nat)

  datatype Quote = Quote(
    roomLineTotal: int, addons: seq<AddonLine>, addonSubtotal: int, taxTotal: int, grandTotal: int,
    totalSavings: int, monthlySavings: int)

  datatype Draft = Draft(addons: seq<AddonLine>, addonSubtotal: int, grandTotal: int)

  datatype AddonError = AddonNotFound | AddonUnavailable

  const DAYS_PER_MONTH := 30
  const RUPEE := 100

  /** `Math.round(a / b)` for a positive `b`: the floor of the quotient plus one half. */
  function Round(a: int, b: int): int
    requires b > 0
  {
    (2 * a + b) / (2 * b)
  }

  lemma RoundBounds(a: int, b: int)
    requires b > 0
    ensures 2 * b * Round(a, b) - b <= 2 * a < 2 * b * Round(a, b) + b
  {
    var n, d := 2 * a + b, 2 * b;
    assert n == d * (n / d) + n % d;
  }

  lemma RoundMonotone(a: int, a': int, b: int)
    requires b > 0 && a <= a'
    ensures Round(a, b) <= Round(a', b)
  {
    var n, n', d := 2 * a + b, 2 * a' + b, 2 * b;
    QuotientMonotone(n, n', d);
  }

  lemma QuotientMonotone(n: int, n': int, d: int)
    requires d > 0 && n <= n'
    ensures n / d <= n' / d
  {
    var drop := n / d - n' / d;
    assert n == d * (n / d) + n % d && n' == d * (n' / d) + n' % d;
    assert d * drop == d * (n / d) - d * (n' / d);
    assert drop >= 1 ==> d * drop >= d;
  }

  // ---------------------------------------------------------------- room line

  /** Whole months at the monthly price and the remaining days at the nightly rate. */
  function RawRoomPrice(monthly: nat, nightly: nat, days: nat): int
  {
    days / DAYS_PER_MONTH * monthly + days % DAYS_PER_MONTH * nightly
  }

  function RoomLineTotal(monthly: nat, nightly: nat, days: nat): int
  {
    Round(RawRoomPrice(monthly, nightly, days), RUPEE)
  }

  /** Months at the monthly price and the days over at the nightly rate, to the nearest rupee. */
  lemma RoomTotalExactly(monthly: nat, nightly: nat, days: nat) returns (months: nat, rest: nat)
    ensures days == 30 * months + rest && rest < 30
    ensures -50 <= 100 * RoomLineTotal(monthly, nightly, days) - (months * monthly + rest * nightly) <= 50
  {
    months, rest := days / DAYS_PER_MONTH, days % DAYS_PER_MONTH;
    RoundBounds(RawRoomPrice(monthly, nightly, days), RUPEE);
  }

  lemma OneMoreDay(monthly: nat, nightly: nat, days: nat)
    ensures RawRoomPrice(monthly, nightly, days + 1) - RawRoomPrice(monthly, nightly, days)
            == if days % DAYS_PER_MONTH == DAYS_PER_MONTH - 1 then monthly - 29 * nightly else nightly
  {
    var m, r := days / DAYS_PER_MONTH, days % DAYS_PER_MONTH;
    if r == DAYS_PER_MONTH - 1 {
      assert (days + 1) / DAYS_PER_MONTH == m + 1 && (days + 1) % DAYS_PER_MONTH == 0;
      assert (m + 1) * monthly == m * monthly + monthly;
    } else {
      assert (days + 1) / DAYS_PER_MONTH == m && (days + 1) % DAYS_PER_MONTH == r + 1;
      assert (r + 1) * nightly == r * nightly + nightly;
    }
  }

  lemma {:induction false} RawPriceMonotone(monthly: nat, nightly: nat, days: nat, longer: nat)
    requires monthly >= 29 * nightly && days <= longer
    ensures RawRoomPrice(monthly, nightly, days) <= RawRoomPrice(monthly, nightly, longer)
    decreases longer
  {
    if days < longer {
      RawPriceMonotone(monthly, nightly, days, longer - 1);
      OneMoreDay(monthly, nightly, longer - 1);
    }
  }

  /** A longer stay never has a smaller room total when a month costs at least 29 nights. */
  lemma RoomTotalMonotone(monthly: nat, nightly: nat, days: nat, longer: nat)
    requires monthly >= 29 * nightly && days <= longer
    ensures RoomLineTotal(monthly, nightly, days) <= RoomLineTotal(monthly, nightly, longer)
  {
    RawPriceMonotone(monthly, nightly, days, longer);
    RoundMonotone(RawRoomPrice(monthly, nightly, days), RawRoomPrice(monthly, nightly, longer), RUPEE);
  }

  /** Before rounding that condition is also necessary: the price drops at the end of each month. */
  lemma RawPriceMonotoneExactly(monthly: nat, nightly: nat)
    ensures (forall days: nat ::
               RawRoomPrice(monthly, nightly, days) <= RawRoomPrice(monthly, nightly, days + 1))
            <==> monthly >= 29 * nightly
  {
    if monthly >= 29 * nightly {
      forall days: nat
        ensures RawRoomPrice(monthly, nightly, days) <= RawRoomPrice(monthly, nightly, days + 1)
      {
        OneMoreDay(monthly, nightly, days);
      }
    } else {
      OneMoreDay(monthly, nightly, 29);
    }
  }

  // ---------------------------------------------------------------- savings

  function RegularPrice(nightly: nat, days: nat): int
  {
    Round(nightly * days, RUPEE)
  }

  function TotalSavings(monthly: nat, nightly: nat, days: nat): int
  {
    var saved := RegularPrice(nightly, days) - RoomLineTotal(monthly, nightly, days);
    if saved > 0 then saved else 0
  }

  lemma RawSavings(monthly: nat, nightly: nat, days: nat)
    ensures nightly * days - RawRoomPrice(monthly, nightly, days)
            == days / DAYS_PER_MONTH * (30 * nightly - monthly)
    ensures monthly <= 30 * nightly ==> RawRoomPrice(monthly, nightly, days) <= nightly * days
  {
    var m, r := days / DAYS_PER_MONTH, days % DAYS_PER_MONTH;
    assert days == 30 * m + r;
    assert nightly * (30 * m + r) == m * (30 * nightly) + r * nightly;
    assert m * (30 * nightly - monthly) == m * (30 * nightly) - m * monthly;
  }

  /**
   * When a month costs at most 30 nights the clamp at zero never acts, and the savings differ from
   * the exact amount by at most one rupee.
   */
  lemma SavingsWithinARupee(monthly: nat, nightly: nat, days: nat)
    requires monthly <= 30 * nightly
    ensures TotalSavings(monthly, nightly, days)
            == RegularPrice(nightly, days) - RoomLineTotal(monthly, nightly, days)
    ensures var exact := days / DAYS_PER_MONTH * (30 * nightly - monthly);
            -RUPEE <= RUPEE * TotalSavings(monthly, nightly, days) - exact <= RUPEE
  {
    RawSavings(monthly, nightly, days);
    RoundedDifference(RawRoomPrice(monthly, nightly, days), nightly * days);
  }

  lemma RoundedDifference(a: int, a': int)
    requires a <= a'
    ensures Round(a, RUPEE) <= Round(a', RUPEE)
    ensures -RUPEE <= RUPEE * (Round(a', RUPEE) - Round(a, RUPEE)) - (a' - a) <= RUPEE
  {
    RoundBounds(a, RUPEE);
    RoundBounds(a', RUPEE);
  }

  // ---------------------------------------------------------------- charges

  /** 5% GST on a subtotal in paise, in whole rupees. */
  function Tax(subtotal: int): int
  {
    Round(5 * subtotal, 100 * RUPEE)
  }

  function GrandTotal(subtotal: int): int
  {
    subtotal + RUPEE * Tax(subtotal)
  }

  /** The tax is within half a rupee of 5%, and a larger subtotal never has a smaller grand total. */
  lemma TaxAndGrandTotal(subtotal: int, larger: int)
    requires subtotal <= larger
    ensures -50 * RUPEE <= 100 * RUPEE * Tax(subtotal) - 5 * subtotal <= 50 * RUPEE
    ensures Tax(subtotal) <= Tax(larger)
    ensures GrandTotal(subtotal) <= GrandTotal(larger)
    ensures subtotal < larger ==> GrandTotal(subtotal) < GrandTotal(larger)
  {
    RoundBounds(5 * subtotal, 100 * RUPEE);
    RoundMonotone(5 * subtotal, 5 * larger, 100 * RUPEE);
  }

  // ---------------------------------------------------------------- addon lines

  function FindAddon(catalogue: seq<Addon>, id: string): Option<Addon>
  {
    if catalogue == [] then None
    else if catalogue[0].id == id then Some(catalogue[0])
    else FindAddon(catalogue[1..], id)
  }

  function PricedLine(addon: Addon, quantity: nat, months: nat): AddonLine
  {
    var qty := if addon.maxQuantity.Some? && addon.maxQuantity.value < quantity then addon.maxQuantity.value
               else quantity;
    var total := if addon.pricingModel == PerMonth then addon.unitPrice * qty * months else addon.unitPrice * qty;
    AddonLine(addon.id, addon.name, qty, addon.unitPrice, total)
  }

  /**
   * Never more units than asked for or allowed, and no fewer; a monthly addon is charged for each whole
   * month, a one-time addon once.
   */
  ghost predicate IsLineFor(line: AddonLine, addon: Addon, quantity: nat, months: nat)
  {
    && line.id == addon.id && line.name == addon.name && line.unitPrice == addon.unitPrice
    && line.quantity <= quantity && (addon.maxQuantity.Some? ==> line.quantity <= addon.maxQuantity.value)
    && (line.quantity == quantity || addon.maxQuantity == Some(line.quantity))
    && (addon.pricingModel == PerMonth ==> line.lineTotal == addon.unitPrice * line.quantity * months)
    && (addon.pricingModel == OneTime ==> line.lineTotal == addon.unitPrice * line.quantity)
  }

  /** The first addon of the catalogue with the id. */
  ghost predicate IsAddonOf(catalogue: seq<Addon>, id: string, k: nat)
  {
    k < |catalogue| && catalogue[k].id == id && forall j | 0 <= j < k :: catalogue[j].id != id
  }

  lemma {:induction false} FoundAddon(catalogue: seq<Addon>, id: string) returns (k: nat)
    ensures if FindAddon(catalogue, id).Some?
            then IsAddonOf(catalogue, id, k) && FindAddon(catalogue, id) == Some(catalogue[k])
            else forall j | 0 <= j < |catalogue| :: catalogue[j].id != id
  {
    k := 0;
    if catalogue != [] && catalogue[0].id != id {
      var rest := FoundAddon(catalogue[1..], id);
      k := rest + 1;
      assert forall j | 0 < j < |catalogue| :: catalogue[j] == catalogue[1..][j - 1];
    }
  }

  /** Asked for and on offer. */
  predicate Bookable(input: AddonInput, catalogue: seq<Addon>)
  {
    && input.quantity > 0
    && FindAddon(catalogue, input.id).Some?
    && FindAddon(catalogue, input.id).value.available
  }

  /** One line for each bookable input among the first `n`, in order. */
  ghost function Lines(inputs: seq<AddonInput>, catalogue: seq<Addon>, months: nat, n: nat): seq<AddonLine>
    requires n <= |inputs|
  {
    if n == 0 then []
    else
      var input := inputs[n - 1];
      Lines(inputs, catalogue, months, n - 1)
      + if Bookable(input, catalogue) then
          [PricedLine(FindAddon(catalogue, input.id).value, input.quantity, months)]
        else []
  }

  ghost function LinesTotal(lines: seq<AddonLine>): int
  {
    if lines == [] then 0 else LinesTotal(lines[..|lines| - 1]) + lines[|lines| - 1].lineTotal
  }

  /** How many of the first `n` inputs become lines. */
  ghost function Booked(inputs: seq<AddonInput>, catalogue: seq<Addon>, n: nat): nat
    requires n <= |inputs|
  {
    if n == 0 then 0 else Booked(inputs, catalogue, n - 1) + if Bookable(inputs[n - 1], catalogue) then 1 else 0
  }

  /** Every bookable input has its own line, after those of the bookable inputs before it, and there are no others. */
  lemma {:induction false} LinesExactly(inputs: seq<AddonInput>, catalogue: seq<Addon>, months: nat, n: nat)
    requires n <= |inputs|
    ensures |Lines(inputs, catalogue, months, n)| == Booked(inputs, catalogue, n)
    ensures forall i | 0 <= i < n && Bookable(inputs[i], catalogue) ::
              && Booked(inputs, catalogue, i) < |Lines(inputs, catalogue, months, n)|
              && IsLineFor(Lines(inputs, catalogue, months, n)[Booked(inputs, catalogue, i)],
                           FindAddon(catalogue, inputs[i].id).value, inputs[i].quantity, months)
  {
    hide FindAddon;
    if n > 0 {
      LinesExactly(inputs, catalogue, months, n - 1);
    }
  }

  /** What is charged for addons is the sum of their lines. */
  lemma LinesAdd(lines: seq<AddonLine>, line: AddonLine)
    ensures LinesTotal([]) == 0
    ensures LinesTotal(lines + [line]) == LinesTotal(lines) + line.lineTotal
  {
    assert (lines + [line])[..|lines|] == lines;
  }

  /** The quote's loop: unknown and unavailable addons are skipped. */
  method QuoteAddons(inputs: seq<AddonInput>, catalogue: seq<Addon>, months: nat)
    returns (lines: seq<AddonLine>, subtotal: int)
    ensures lines == Lines(inputs, catalogue, months, |inputs|)
    ensures subtotal == LinesTotal(lines)
  {
    hide PricedLine, FindAddon;
    lines, subtotal := [], 0;
    for i := 0 to |inputs|
      invariant lines == Lines(inputs, catalogue, months, i)
      invariant subtotal == LinesTotal(lines)
    {
      if inputs[i].quantity == 0 {
        continue;
      }
      var addon := FindAddon(catalogue, inputs[i].id);
      if addon.None? || !addon.value.available {
        continue;
      }
      var line := PricedLine(addon.value, inputs[i].quantity, months);
      assert (lines + [line])[..|lines|] == lines;
      lines := lines + [line];
      subtotal := subtotal + line.lineTotal;
    }
  }

  function InputError(input: AddonInput, catalogue: seq<Addon>): Option<AddonError>
  {
    if input.quantity == 0 then None
    else if FindAddon(catalogue, input.id).None? then Some(AddonNotFound)
    else if !FindAddon(catalogue, input.id).value.available then Some(AddonUnavailable)
    else None
  }

  /** The draft's loop: the first unknown or unavailable addon that is asked for refuses the draft. */
  method DraftAddons(inputs: seq<AddonInput>, catalogue: seq<Addon>, months: nat)
    returns (r: Result<(seq<AddonLine>, int), AddonError>)
    ensures r.Success? <==> forall i | 0 <= i < |inputs| :: InputError(inputs[i], catalogue).None?
    ensures r.Success? ==>
              && r.value.0 == Lines(inputs, catalogue, months, |inputs|)
              && r.value.1 == LinesTotal(r.value.0)
    ensures r.Failure? ==>
              exists i | 0 <= i < |inputs| ::
                && InputError(inputs[i], catalogue) == Some(r.error)
                && forall j | 0 <= j < i :: InputError(inputs[j], catalogue).None?
  {
    hide PricedLine, FindAddon;
    var lines, subtotal := [], 0;
    for i := 0 to |inputs|
      invariant forall j | 0 <= j < i :: InputError(inputs[j], catalogue).None?
      invariant lines == Lines(inputs, catalogue, months, i)
      invariant subtotal == LinesTotal(lines)
    {
      if inputs[i].quantity == 0 {
        continue;
      }
      var addon := FindAddon(catalogue, inputs[i].id);
      if addon.None? {
        return Failure(AddonNotFound);
      }
      if !addon.value.available {
        return Failure(AddonUnavailable);
      }
      var line := PricedLine(addon.value, inputs[i].quantity, months);
      assert (lines + [line])[..|lines|] == lines;
      lines := lines + [line];
      subtotal := subtotal + line.lineTotal;
    }
    return Success((lines, subtotal));
  }

  // ---------------------------------------------------------------- quote and draft

  /** The charges of a quote. */
  ghost predicate IsQuote(
    q: Quote, monthly: nat, nightly: nat, days: nat, inputs: seq<AddonInput>, catalogue: seq<Addon>)
  {
    && q.roomLineTotal == RoomLineTotal(monthly, nightly, days)
    && q.addons == Lines(inputs, catalogue, days / DAYS_PER_MONTH, |inputs|)
    && q.addonSubtotal == LinesTotal(q.addons)
    && q.taxTotal == Tax(RUPEE * q.roomLineTotal + q.addonSubtotal)
    && q.grandTotal == GrandTotal(RUPEE * q.roomLineTotal + q.addonSubtotal)
    && q.totalSavings == TotalSavings(monthly, nightly, days)
  }

  /**
   * The quote is refused when the room type has no monthly price; a price of zero is a price. A missing
   * or zero eZee rate falls back to the base price.
   */
  method CreateQuote(
    monthlyPrice: Option<nat>, ezeeRate: Option<nat>, basePrice: nat, days: nat,
    inputs: seq<AddonInput>, catalogue: seq<Addon>)
    returns (quote: Option<Quote>)
    ensures quote.None? <==> monthlyPrice.None?
    ensures quote.Some? ==>
              var nightly := if ezeeRate.GetOr(0) == 0 then basePrice else ezeeRate.value;
              && IsQuote(quote.value, monthlyPrice.value, nightly, days, inputs, catalogue)
              && (days >= DAYS_PER_MONTH ==>
                   quote.value.monthlySavings == Round(quote.value.totalSavings, days / DAYS_PER_MONTH))
              && (days < DAYS_PER_MONTH ==> quote.value.monthlySavings == 0)
  {
    var months := days / DAYS_PER_MONTH;
    if monthlyPrice.None? {
      return None;
    }
    var nightly := if ezeeRate.GetOr(0) == 0 then basePrice else ezeeRate.value;
    var roomLineTotal := Round(months * monthlyPrice.value + days % DAYS_PER_MONTH * nightly, RUPEE);
    var lines, addonSubtotal := QuoteAddons(inputs, catalogue, months);
    var subtotal := RUPEE * roomLineTotal + addonSubtotal;
    var taxTotal := Tax(subtotal);
    var saved := RegularPrice(nightly, days) - roomLineTotal;
    var totalSavings := if saved > 0 then saved else 0;
    var monthlySavings := if months > 0 then Round(totalSavings, months) else 0;
    return Some(Quote(roomLineTotal, lines, addonSubtotal, taxTotal, subtotal + RUPEE * taxTotal,
                      totalSavings, monthlySavings));
  }

  /** The draft keeps the room subtotal and the tax of its quote and adds its own addon lines. */
  method CreateDraftBooking(quote: Quote, days: nat, inputs: seq<AddonInput>, catalogue: seq<Addon>)
    returns (r: Result<Draft, AddonError>)
    ensures r.Success? <==> forall i | 0 <= i < |inputs| :: InputError(inputs[i], catalogue).None?
    ensures r.Success? ==> IsDraft(r.value, quote, days, inputs, catalogue)
  {
    var addons := DraftAddons(inputs, catalogue, days / DAYS_PER_MONTH);
    if addons.Failure? {
      return Failure(addons.error);
    }
    var (lines, addonSubtotal) := addons.value;
    return Success(Draft(lines, addonSubtotal,
                         RUPEE * quote.roomLineTotal + addonSubtotal + RUPEE * quote.taxTotal));
  }

  ghost predicate IsDraft(draft: Draft, quote: Quote, days: nat, inputs: seq<AddonInput>, catalogue: seq<Addon>)
  {
    && draft.addons == Lines(inputs, catalogue, days / DAYS_PER_MONTH, |inputs|)
    && draft.addonSubtotal == LinesTotal(draft.addons)
    && draft.grandTotal == RUPEE * quote.roomLineTotal + draft.addonSubtotal + RUPEE * quote.taxTotal
  }

  /**
   * A draft made of its quote's own inputs costs what the quote said. With other inputs it does so
   * exactly when the addon subtotal is the same, since the tax is taken from the quote.
   */
  lemma DraftCostsWhatTheQuoteSaid(
    q: Quote, d: Draft, monthly: nat, nightly: nat, days: nat,
    quoted: seq<AddonInput>, drafted: seq<AddonInput>, catalogue: seq<Addon>)
    requires IsQuote(q, monthly, nightly, days, quoted, catalogue)
    requires IsDraft(d, q, days, drafted, catalogue)
    ensures quoted == drafted ==> d.addons == q.addons && d.grandTotal == q.grandTotal
    ensures d.grandTotal == q.grandTotal <==> d.addonSubtotal == q.addonSubtotal
  {
  }

  /** An input the draft accepts is one the quote did not skip for lack of an addon. */
  lemma {:induction false} AcceptedInputsAreQuoted(
    inputs: seq<AddonInput>, catalogue: seq<Addon>, months: nat, n: nat)
    requires n <= |inputs|
    requires forall i | 0 <= i < |inputs| :: InputError(inputs[i], catalogue).None?
    ensures |Lines(inputs, catalogue, months, n)| == Asked(inputs, n)
  {
    if n > 0 {
      AcceptedInputsAreQuoted(inputs, catalogue, months, n - 1);
      assert InputError(inputs[n - 1], catalogue).None?;
    }
  }

  /** How many of the first `n` inputs ask for a positive quantity. */
  ghost function Asked(inputs: seq<AddonInput>, n: nat): nat
    requires n <= |inputs|
  {
    if n == 0 then 0 else Asked(inputs, n - 1) + if inputs[n - 1].quantity > 0 then 1 else 0
  }
}
