/** The parts an address can play, and whether only verified payments are looked at. */
module Roles {
  datatype Role = PayerRole | PayeeRole | FacilitatorRole
  datatype Lens = KnownLens | AllLens
}
