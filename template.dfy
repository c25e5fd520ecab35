/** The two read-only alias tables of the command line: policy short names to
    IAM managed-policy ARNs, and redirect short names to AWS Console URLs.
    A name that is not a key passes through untouched. */
module Template {

  const PolicyArnPrefix: string := "arn:aws:iam::aws:policy/"

  const Policies: map<string, string> := map[
    "admin"    := "arn:aws:iam::aws:policy/AdministratorAccess",
    "all"      := "arn:aws:iam::aws:policy/AdministratorAccess",
    "billing"  := "arn:aws:iam::aws:policy/job-function/Billing",
    "readonly" := "arn:aws:iam::aws:policy/ReadOnlyAccess",
    "ro"       := "arn:aws:iam::aws:policy/ReadOnlyAccess"
  ]

  const Redirects: map<string, string> := map[
    "billing" := "https://console.aws.amazon.com/billing/home",
    "console" := "https://console.aws.amazon.com/console/home",
    "ec2"     := "https://console.aws.amazon.com/ec2/v2/home",
    "eks"     := "https://console.aws.amazon.com/eks/home",
    "home"    := "https://console.aws.amazon.com/console/home",
    "iam"     := "https://console.aws.amazon.com/iam/home",
    "s3"      := "https://s3.console.aws.amazon.com/s3/home"
  ]

  /** Look `alias` up in `table`, falling back to `alias` itself. */
  function Resolve(table: map<string, string>, alias: string): (r: string)
    ensures alias in table ==> r == table[alias]
    ensures alias !in table ==> r == alias
  {
    if alias in table then table[alias] else alias
  }

  function ResolvePolicyAlias(alias: string): (r: string)
    ensures alias in Policies ==> r == Policies[alias] && PolicyArnPrefix <= r
    ensures alias !in Policies ==> r == alias
  {
    Resolve(Policies, alias)
  }

  function ResolveRedirectAlias(alias: string): (r: string)
    ensures alias in Redirects ==> r == Redirects[alias] && "https://" <= r
    ensures alias !in Redirects ==> r == alias
  {
    Resolve(Redirects, alias)
  }

  /** No value of `table` is also one of its keys. */
  predicate ValuesAreNotKeys(table: map<string, string>) {
    forall k :: k in table ==> table[k] !in table
  }

  /** Resolving through a table whose values are not keys is idempotent. */
  lemma ResolveIdempotent(table: map<string, string>, alias: string)
    requires ValuesAreNotKeys(table)
    ensures Resolve(table, Resolve(table, alias)) == Resolve(table, alias)
  {
  }

  lemma TablesValuesAreNotKeys()
    ensures ValuesAreNotKeys(Policies)
    ensures ValuesAreNotKeys(Redirects)
  {
  }

  lemma PolicyAliasIdempotent(alias: string)
    ensures ResolvePolicyAlias(ResolvePolicyAlias(alias)) == ResolvePolicyAlias(alias)
  {
    TablesValuesAreNotKeys();
    ResolveIdempotent(Policies, alias);
  }

  lemma RedirectAliasIdempotent(alias: string)
    ensures ResolveRedirectAlias(ResolveRedirectAlias(alias)) == ResolveRedirectAlias(alias)
  {
    TablesValuesAreNotKeys();
    ResolveIdempotent(Redirects, alias);
  }

  /** The synonyms of the policy table name the same policy. */
  lemma PolicySynonyms()
    ensures ResolvePolicyAlias("admin") == ResolvePolicyAlias("all") == "arn:aws:iam::aws:policy/AdministratorAccess"
    ensures ResolvePolicyAlias("readonly") == ResolvePolicyAlias("ro") == "arn:aws:iam::aws:policy/ReadOnlyAccess"
  {
  }

  /** Every policy value is an AWS managed-policy ARN, and every redirect is an https URL. */
  lemma TableValueShapes()
    ensures forall k :: k in Policies ==> PolicyArnPrefix <= Policies[k]
    ensures forall k :: k in Redirects ==> "https://" <= Redirects[k]
  {
  }

  /** Keys are matched exactly: a literal ARN or a differently-cased key passes through. */
  lemma UnknownAliasesPassThrough()
    ensures ResolvePolicyAlias("arn:aws:iam::123456789012:policy/Custom") == "arn:aws:iam::123456789012:policy/Custom"
    ensures ResolvePolicyAlias("Admin") == "Admin"
    ensures ResolveRedirectAlias("https://example.com/x") == "https://example.com/x"
    ensures ResolveRedirectAlias("IAM") == "IAM"
  {
  }
}
