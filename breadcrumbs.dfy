/**
  The tracing breadcrumb, reduced to the fields that were set explicitly
  (what `breadcrumb.dict(skip_defaults=True)` returns).
 */
module Breadcrumbs {

  type Breadcrumb = map<string, string>

  const ApplicationName := "application_name"
  const ProcessorName := "processor_name"
  const RepositoryName := "repository_name"
  const TransactionName := "transaction_name"

  /** `breadcrumb.dict(include=wanted, skip_defaults=True)` */
  function Fields(b: Breadcrumb, wanted: set<string>): (r: map<string, string>)
    ensures r.Keys == b.Keys * wanted
    ensures forall k :: k in r ==> r[k] == b[k]
  {
    map k | k in b && k in wanted :: b[k]
  }

  /** `Breadcrumb(transaction_name=name)` */
  function TransactionBreadcrumb(name: string): (b: Breadcrumb)
    ensures b.Keys == {TransactionName} && b[TransactionName] == name
  {
    map[TransactionName := name]
  }

  /** `bool(breadcrumb.transaction_name)`: the field is set and not empty. */
  predicate InTransaction(b: Breadcrumb) {
    TransactionName in b && b[TransactionName] != ""
  }
}
