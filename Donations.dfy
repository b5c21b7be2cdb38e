/** The donation document of models/donation.js: its fields, the status enum,
    the phone validator, the bounds and defaults of the feedback sub-document,
    and the required-field checks Mongoose runs when a document is validated. */
module Donations {
  import opened Wrappers

  /** A MongoDB ObjectId: its leading four bytes are the creation time in seconds,
      the other eight bytes are `rest`. Ids compare byte by byte, so by
      `seconds` first and then by `rest`. */
  datatype ObjectId = ObjectId(seconds: int, rest: nat)

  /** `ObjectId.createFromTime(t)`: the time bytes set to `t`, all others zero. */
  function CreateFromTime(t: int): ObjectId
  {
    ObjectId(t, 0)
  }

  /** The `$gte` comparison of two ids. */
  predicate IdAtLeast(a: ObjectId, b: ObjectId)
  {
    a.seconds > b.seconds || (a.seconds == b.seconds && a.rest >= b.rest)
  }

  /** An id is at least the id made from time `t` exactly when it was created at or after `t`. */
  lemma IdAtLeastFromTime(id: ObjectId, t: int)
    ensures IdAtLeast(id, CreateFromTime(t)) <==> id.seconds >= t
  {
  }

  /** The `status` enum, in the order the schema lists it. */
  datatype Status = Pending | Rejected | Accepted | Assigned | Collected

  function StatusName(s: Status): (name: string)
    ensures |name| > 0
  {
    match s
    case Pending => "pending"
    case Rejected => "rejected"
    case Accepted => "accepted"
    case Assigned => "assigned"
    case Collected => "collected"
  }

  /** The enum validator: a string is a status exactly when it is one of the five names. */
  function ParseStatus(x: string): (r: Option<Status>)
    ensures r.Some? ==> StatusName(r.value) == x
    ensures r.None? ==> forall s: Status :: StatusName(s) != x
  {
    if x == "pending" then Some(Pending)
    else if x == "rejected" then Some(Rejected)
    else if x == "accepted" then Some(Accepted)
    else if x == "assigned" then Some(Assigned)
    else if x == "collected" then Some(Collected)
    else None
  }

  lemma ParseStatusName(s: Status)
    ensures ParseStatus(StatusName(s)) == Some(s)
  {
  }

  /** The `feedback` sub-document; every field defaults to null. */
  datatype Feedback = Feedback(rating: Option<int>, comment: Option<string>, submittedAt: Option<int>)

  const NoFeedback := Feedback(None, None, None)

  /** A stored donation. Times are seconds; `phone` and the descriptive fields are strings. */
  datatype Donation = Donation(
    donor: ObjectId,
    agent: Option<ObjectId>,
    foodType: string,
    quantity: string,
    cookingTime: int,
    address: string,
    phone: string,
    donorToAdminMsg: Option<string>,
    adminToAgentMsg: Option<string>,
    collectionTime: Option<int>,
    status: Status,
    feedback: Feedback)

  /** A stored document as a query returns it: its `_id` and its fields. */
  datatype Document = Document(id: ObjectId, donation: Donation)

  /** A character of the class `[0-9 +()-]`. */
  predicate PhoneChar(c: char)
  {
    ('0' <= c <= '9') || c == ' ' || c == '+' || c == '(' || c == ')' || c == '-'
  }

  /** The phone rule as a property: at least seven characters, all from the class. */
  predicate ValidPhone(v: string)
  {
    |v| >= 7 && forall i :: 0 <= i < |v| ==> PhoneChar(v[i])
  }

  /** `/^[0-9 +()-]{7,}$/.test(v)` read as a matcher: consume one class character at a time,
      `min` of them still owed, and succeed at the end of input once nothing is owed. */
  function MatchesPhonePattern(v: string, min: nat): bool
    decreases |v|
  {
    if v == [] then min == 0
    else PhoneChar(v[0]) && MatchesPhonePattern(v[1..], if min == 0 then 0 else min - 1)
  }

  /** The matcher with the pattern's bound 7 accepts exactly the strings `ValidPhone` describes. */
  lemma {:induction false} PhonePatternIsValidPhone(v: string)
    ensures MatchesPhonePattern(v, 7) <==> ValidPhone(v)
  {
    MatchesAtLeast(v, 7);
  }

  lemma {:induction false} MatchesAtLeast(v: string, min: nat)
    ensures MatchesPhonePattern(v, min) <==> |v| >= min && forall i :: 0 <= i < |v| ==> PhoneChar(v[i])
    decreases |v|
  {
    if v != [] {
      MatchesAtLeast(v[1..], if min == 0 then 0 else min - 1);
      if forall i :: 0 <= i < |v[1..]| ==> PhoneChar(v[1..][i]) {
        if PhoneChar(v[0]) {
          forall i | 0 <= i < |v| ensures PhoneChar(v[i]) {
            if i > 0 { assert v[i] == v[1..][i - 1]; }
          }
        }
      } else {
        var i :| 0 <= i < |v[1..]| && !PhoneChar(v[1..][i]);
        assert v[1..][i] == v[i + 1];
      }
    }
  }

  /** The phone validator of the schema: the regular-expression test, which accepts exactly
      the strings of at least seven characters drawn from `[0-9 +()-]`. */
  function PhoneValidator(v: string): (ok: bool)
    ensures ok <==> ValidPhone(v)
  {
    PhonePatternIsValidPhone(v);
    MatchesPhonePattern(v, 7)
  }

  /** A rating passes `min: 1, max: 5`; null passes as well. */
  predicate RatingInBounds(rating: Option<int>)
  {
    rating.None? || 1 <= rating.value <= 5
  }

  /** Everything the schema demands of a stored donation. The `required` validator
      rejects an empty string, so the required string fields are non-empty. */
  predicate Valid(d: Donation)
  {
    |d.foodType| > 0 && |d.quantity| > 0 && |d.address| > 0 &&
    ValidPhone(d.phone) &&
    RatingInBounds(d.feedback.rating)
  }

  /** A document as handed to Mongoose, before validation: every field may be missing
      and `status` is still a string. */
  datatype DonationInput = DonationInput(
    donor: Option<ObjectId>,
    agent: Option<ObjectId>,
    foodType: Option<string>,
    quantity: Option<string>,
    cookingTime: Option<int>,
    address: Option<string>,
    phone: Option<string>,
    donorToAdminMsg: Option<string>,
    adminToAgentMsg: Option<string>,
    collectionTime: Option<int>,
    status: Option<string>,
    feedback: Option<Feedback>)

  /** The schema paths that carry a validator. */
  datatype Path = DonorPath | FoodTypePath | QuantityPath | CookingTimePath | AddressPath
                | PhonePath | StatusPath | RatingPath

  /** `required` on a string path: present and not empty. */
  predicate RequiredString(v: Option<string>)
  {
    v.Some? && |v.value| > 0
  }

  const AllPaths: set<Path> := {DonorPath, FoodTypePath, QuantityPath, CookingTimePath, AddressPath,
                                PhonePath, StatusPath, RatingPath}

  /** Whether the validator on path `p` rejects the input. */
  predicate PathFails(x: DonationInput, p: Path)
  {
    match p
    case DonorPath => x.donor.None?
    case FoodTypePath => !RequiredString(x.foodType)
    case QuantityPath => !RequiredString(x.quantity)
    case CookingTimePath => x.cookingTime.None?
    case AddressPath => !RequiredString(x.address)
    case PhonePath => x.phone.None? || !PhoneValidator(x.phone.value)
    case StatusPath => x.status.None? || ParseStatus(x.status.value).None?
    case RatingPath => !RatingInBounds(InputRating(x))
  }

  /** The rating handed in, or its default null. */
  function InputRating(x: DonationInput): Option<int>
  {
    if x.feedback.Some? then x.feedback.value.rating else None
  }

  /** The paths whose validators fail, as collected into a ValidationError. */
  function Failures(x: DonationInput): (errs: set<Path>)
    ensures DonorPath in errs <==> x.donor.None?
    ensures FoodTypePath in errs <==> !RequiredString(x.foodType)
    ensures QuantityPath in errs <==> !RequiredString(x.quantity)
    ensures CookingTimePath in errs <==> x.cookingTime.None?
    ensures AddressPath in errs <==> !RequiredString(x.address)
    ensures PhonePath in errs <==> x.phone.None? || !ValidPhone(x.phone.value)
    ensures StatusPath in errs <==> x.status.None? || ParseStatus(x.status.value).None?
    ensures RatingPath in errs <==> !RatingInBounds(InputRating(x))
  {
    set p | p in AllPaths && PathFails(x, p)
  }

  /** Validation followed by the schema defaults: the stored donation, or the failing paths. */
  function Validate(x: DonationInput): (r: Result<Donation, set<Path>>)
    ensures r.Err? <==> Failures(x) != {}
    ensures r.Err? ==> r.error == Failures(x)
    ensures r.Ok? ==> Valid(r.value)
    ensures r.Ok? ==> x.feedback.None? ==> r.value.feedback == NoFeedback
    ensures r.Ok? ==> AsInput(r.value) == x.(feedback := Some(if x.feedback.Some? then x.feedback.value else NoFeedback))
    ensures r.Ok? ==> (Some(r.value.donor) == x.donor && Some(r.value.phone) == x.phone
                       && x.status == Some(StatusName(r.value.status)))
  {
    if Failures(x) != {} then Err(Failures(x))
    else
      var fb := if x.feedback.Some? then x.feedback.value else NoFeedback;
      Ok(Donation(x.donor.value, x.agent, x.foodType.value, x.quantity.value, x.cookingTime.value,
                  x.address.value, x.phone.value, x.donorToAdminMsg, x.adminToAgentMsg,
                  x.collectionTime, ParseStatus(x.status.value).value, fb))
  }

  /** The input that writes every field of `d` out in full. */
  function AsInput(d: Donation): DonationInput
  {
    DonationInput(Some(d.donor), d.agent, Some(d.foodType), Some(d.quantity), Some(d.cookingTime),
                  Some(d.address), Some(d.phone), d.donorToAdminMsg, d.adminToAgentMsg,
                  d.collectionTime, Some(StatusName(d.status)),
                  Some(d.feedback))
  }

  /** Validation accepts a donation written out in full exactly when the donation meets the
      schema, and then gives back that donation unchanged. */
  lemma ValidateRoundTrip(d: Donation)
    ensures Validate(AsInput(d)).Ok? <==> Valid(d)
    ensures Valid(d) ==> Validate(AsInput(d)) == Ok(d)
  {
    ParseStatusName(d.status);
    PhonePatternIsValidPhone(d.phone);
  }
}
