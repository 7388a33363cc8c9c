/** Payment links: a configured link per package, or a placeholder URL built
    from the package, the amount and the business-name slug; and the
    once-only loading of the payment library. */
module Stripe {
  import opened Text
  import opened Types
  import opened Slugify

  /** PAYMENT_LINK_MAP: no package has a configured link. */
  const PaymentLinkMap: map<string, string> := map[]

  const PlaceholderPrefix := "https://buy.stripe.com/test_"

  /** The placeholder link for a package, an amount and a business name. */
  function Placeholder(package: string, amount: nat, businessName: string): (r: string)
    ensures StartsWith(r, PlaceholderPrefix)
  {
    PlaceholderPrefix + Lower(package) + "_" + NatToDecimal(amount) + "_" + Slug(businessName)
  }

  /** generateStripePaymentLink: a non-empty configured link wins; otherwise the placeholder. */
  function PaymentLink(links: map<string, string>, package: string, amount: nat, businessName: string): (r: string)
    ensures package in links && links[package] != "" ==> r == links[package]
    ensures !(package in links && links[package] != "") ==> r == Placeholder(package, amount, businessName)
  {
    if package in links && links[package] != "" then links[package]
    else Placeholder(package, amount, businessName)
  }

  /** With the shipped (empty) table every package gets the placeholder. */
  lemma EveryPackageGetsPlaceholder(package: string, amount: nat, businessName: string)
    ensures PaymentLink(PaymentLinkMap, package, amount, businessName) == Placeholder(package, amount, businessName)
  {
  }

  /** The placeholder's parts, read back: after the prefix, splitting at '_'
      gives the lower-cased package, the amount's digits and the slug, provided
      the package name has no '_' of its own. */
  lemma {:induction false} PlaceholderParts(package: string, amount: nat, businessName: string)
    requires '_' !in package
    ensures var r := Placeholder(package, amount, businessName);
      var parts := Split(r[|PlaceholderPrefix|..], '_');
      && parts == [Lower(package), NatToDecimal(amount), Slug(businessName)]
      && DecimalValue(parts[1]) == amount
      && IsSlug(parts[2])
  {
    var pkg := Lower(package);
    var digits := NatToDecimal(amount);
    var slug := Slug(businessName);
    assert '_' !in pkg by {
      forall i | 0 <= i < |pkg| ensures pkg[i] != '_' {
        assert package[i] != '_';
      }
    }
    assert '_' !in digits by {
      forall i | 0 <= i < |digits| ensures digits[i] != '_' {
        assert IsDigit(digits[i]);
      }
    }
    assert '_' !in slug by {
      forall i | 0 <= i < |slug| ensures slug[i] != '_' {
        assert IsSlugChar(slug[i]) || slug[i] == '-';
      }
    }
    var r := Placeholder(package, amount, businessName);
    assert r[|PlaceholderPrefix|..] == pkg + ['_'] + (digits + ['_'] + slug);
    SplitAfterPiece(pkg, digits + ['_'] + slug, '_');
    SplitAfterPiece(digits, slug, '_');
    SplitNoSeparator(slug, '_');
    DecimalRoundTrip(amount);
  }

  /** The promise `loadStripe` hands back; only its identity matters here. */
  datatype StripeHandle = StripeHandle(key: string, instance: nat)

  /** The module-level `stripePromise` and its lazy initialisation. */
  class StripeLoader {
    var stripePromise: Option<StripeHandle>

    constructor ()
      ensures stripePromise == None
    {
      stripePromise := None;
    }

    /** getStripe; `loaded` is what `loadStripe` would return if it were called now. */
    method GetStripe(loaded: StripeHandle) returns (p: StripeHandle)
      modifies this
      ensures old(stripePromise).Some? ==> p == old(stripePromise).value && stripePromise == old(stripePromise)
      ensures old(stripePromise).None? ==> p == loaded && stripePromise == Some(loaded)
      ensures stripePromise == Some(p)
    {
      if stripePromise.None? {
        stripePromise := Some(loaded);
      }
      p := stripePromise.value;
    }
  }

  /** Two calls return the same value, whatever the second load would have produced. */
  method GetStripeTwice(loader: StripeLoader, first: StripeHandle, second: StripeHandle)
    returns (p1: StripeHandle, p2: StripeHandle)
    modifies loader
    ensures p1 == p2
    ensures old(loader.stripePromise).None? ==> p1 == first
  {
    p1 := loader.GetStripe(first);
    p2 := loader.GetStripe(second);
  }
}
