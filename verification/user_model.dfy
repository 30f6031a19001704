/** The account collection and the two queries the registration handler puts
    to it: `findOne` by a single-field filter and `countDocuments` by a
    single-field filter. The collection is a sequence of records in insertion
    order; the database engine itself is not modelled. */
module UserModel {

  datatype Option<T> = None | Some(value: T)

  datatype Role = User | SuperAdmin

  /** A stored account. `password` holds the hash, never the plaintext. */
  datatype Account = Account(username: string, email: string, password: string, role: Role)

  /** The filters the handler uses: `{ email }`, `{ username }` and `{ role }`. */
  datatype Filter = ByEmail(email: string) | ByUsername(username: string) | ByRole(role: Role)

  predicate Matches(a: Account, f: Filter) {
    match f
    case ByEmail(e) => a.email == e
    case ByUsername(u) => a.username == u
    case ByRole(r) => a.role == r
  }

  /** Some stored account matches the filter. */
  ghost predicate Exists(accounts: seq<Account>, f: Filter) {
    exists i :: 0 <= i < |accounts| && Matches(accounts[i], f)
  }

  /** `findOne(filter)`: a matching account, or none when there is none. */
  function FindOne(accounts: seq<Account>, f: Filter): (r: Option<Account>)
    ensures r.None? <==> !Exists(accounts, f)
    ensures r.Some? ==> r.value in accounts && Matches(r.value, f)
    decreases |accounts|
  {
    if accounts == [] then None
    else if Matches(accounts[0], f) then Some(accounts[0])
    else
      var r := FindOne(accounts[1..], f);
      assert forall i :: 0 < i < |accounts| ==> accounts[i] == accounts[1..][i - 1];
      r
  }

  /** `countDocuments(filter)`: how many stored accounts match. */
  function CountDocuments(accounts: seq<Account>, f: Filter): (n: nat)
    ensures n <= |accounts|
    ensures n == 0 <==> !Exists(accounts, f)
    decreases |accounts|
  {
    if accounts == [] then 0
    else
      var rest := CountDocuments(accounts[1..], f);
      assert forall i :: 0 < i < |accounts| ==> accounts[i] == accounts[1..][i - 1];
      (if Matches(accounts[0], f) then 1 else 0) + rest
  }

  /** Appending one record raises the count by one exactly when the record
      matches. */
  lemma {:induction false} CountDocumentsAppend(accounts: seq<Account>, x: Account, f: Filter)
    ensures CountDocuments(accounts + [x], f) == CountDocuments(accounts, f) + (if Matches(x, f) then 1 else 0)
    decreases |accounts|
  {
    if accounts != [] {
      assert (accounts + [x])[1..] == accounts[1..] + [x];
      CountDocumentsAppend(accounts[1..], x, f);
    }
  }
}
