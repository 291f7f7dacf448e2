/** What ranking and measurement of discovery have in common. */
module Discovery {

  datatype Kind = Product | Service
  datatype Placement = Promoted | Recommended | Similar

  function KindText(k: Kind): string { match k case Product => "product" case Service => "service" }
}
