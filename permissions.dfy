/** `TaxiPermission`: who may call the taxi endpoints (view level) and who
    may act on one taxi (object level). HTTP methods are their upper-case
    names. */
module Permissions {
  import opened Models

  /** DRF's `SAFE_METHODS`. */
  const SafeMethods: seq<string> := ["GET", "HEAD", "OPTIONS"]

  /** The methods an owning driver may use on their own taxi. */
  const OwnerMethods: seq<string> := SafeMethods + ["PUT", "PATCH"]

  /** `has_permission`: reads are open to all, other methods to staff and drivers. */
  predicate HasPermission(verb: string, user: User) {
    verb in SafeMethods || user.isStaff || user.isDriver
  }

  /** `has_object_permission` for a taxi driven by `owner`. */
  predicate HasObjectPermission(verb: string, user: User, owner: UserId) {
    if user.isStaff then true
    else if user.isDriver && owner == user.id then verb in OwnerMethods
    else false
  }

  /** Every safe method passes the view-level check, whoever asks. */
  lemma SafeMethodsOpen(verb: string, user: User)
    requires verb in {"GET", "HEAD", "OPTIONS"}
    ensures HasPermission(verb, user)
  {
  }

  /** Any other method passes exactly for staff and drivers. */
  lemma UnsafeMethodsNeedRole(verb: string, user: User)
    requires verb !in {"GET", "HEAD", "OPTIONS"}
    ensures HasPermission(verb, user) <==> user.isStaff || user.isDriver
  {
  }

  /** Staff may do anything to any taxi. */
  lemma StaffMayDoAnything(verb: string, user: User, owner: UserId)
    requires user.isStaff
    ensures HasObjectPermission(verb, user, owner)
  {
  }

  /** The owning driver gets exactly GET, HEAD, OPTIONS, PUT and PATCH, so
      in particular not DELETE or POST. */
  lemma OwnerMethodsExactly(verb: string, user: User)
    requires !user.isStaff && user.isDriver
    ensures HasObjectPermission(verb, user, user.id) <==>
      verb in {"GET", "HEAD", "OPTIONS", "PUT", "PATCH"}
    ensures !HasObjectPermission("DELETE", user, user.id) && !HasObjectPermission("POST", user, user.id)
  {
  }

  /** Someone who is neither staff nor the owning driver is refused every
      method, the safe ones included. */
  lemma OthersRefused(verb: string, user: User, owner: UserId)
    requires !user.isStaff && !(user.isDriver && owner == user.id)
    ensures !HasObjectPermission(verb, user, owner)
  {
  }

  /** The object-level check never grants more than the view-level one. */
  lemma ObjectImpliesView(verb: string, user: User, owner: UserId)
    ensures HasObjectPermission(verb, user, owner) ==> HasPermission(verb, user)
  {
  }
}
