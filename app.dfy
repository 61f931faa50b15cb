/**
 * App.Run (app.go): three periodic loops over one App value. One refreshes the access
 * token, one refreshes the user list (falling back to the list held when Run
 * started), and one hands the users to ProcessUsers nine at a time, waiting for each
 * group before starting the next. Each loop body is a method here; the tickers and
 * goroutines around them are not modelled.
 */
module Apps {
  import opened Wrappers
  import opened Users

  /** Users per ProcessUsers call. */
  const ChunkSize: nat := 9

  /** The groups of a chunk loop with step `n`: s[i..min(i+n, |s|)] for i = 0, n, 2n, ... below |s|. */
  function Chunks<T>(s: seq<T>, n: nat): seq<seq<T>>
    requires n > 0
    decreases |s|
  {
    if s == [] then []
    else if |s| <= n then [s]
    else [s[..n]] + Chunks(s[n..], n)
  }

  function Flatten<T>(ss: seq<seq<T>>): seq<T>
    decreases |ss|
  {
    if ss == [] then [] else ss[0] + Flatten(ss[1..])
  }

  /** The chunks concatenate back to the list, in order: every user is processed once. */
  lemma {:induction false} ChunksFlatten<T>(s: seq<T>, n: nat)
    requires n > 0
    ensures Flatten(Chunks(s, n)) == s
    decreases |s|
  {
    if s != [] && |s| > n {
      ChunksFlatten(s[n..], n);
      assert Chunks(s, n)[1..] == Chunks(s[n..], n);
      assert s[..n] + s[n..] == s;
    }
  }

  /** Every chunk is non-empty and holds at most `n` elements. */
  lemma {:induction false} ChunksSizes<T>(s: seq<T>, n: nat)
    requires n > 0
    ensures forall k :: 0 <= k < |Chunks(s, n)| ==> 1 <= |Chunks(s, n)[k]| <= n
    decreases |s|
  {
    if s != [] && |s| > n {
      ChunksSizes(s[n..], n);
      var c := Chunks(s, n);
      forall k | 0 <= k < |c|
        ensures 1 <= |c[k]| <= n
      {
        if k > 0 {
          assert c[k] == Chunks(s[n..], n)[k - 1];
        }
      }
    }
  }

  /** What is left of the list once the loop index reaches `i`. */
  function From<T>(s: seq<T>, i: nat): seq<T> {
    if i < |s| then s[i..] else []
  }

  /** One turn of the chunk loop: the group starting at `i` ends at min(i + n, |s|). */
  lemma ChunksAt<T>(s: seq<T>, i: nat, n: nat)
    requires n > 0 && i < |s|
    ensures Chunks(From(s, i), n) == [s[i..if i + n > |s| then |s| else i + n]] + Chunks(From(s, i + n), n)
  {
    var rest := s[i..];
    if |rest| <= n {
      assert rest == s[i..|s|];
    } else {
      assert rest[..n] == s[i..i + n];
      assert rest[n..] == s[i + n..];
    }
  }

  /** GetUserFromApi's outcome: an error, or the decoded list (nil when the body decodes to null). */
  datatype UserFetch = FetchFailed | Fetched(users: Option<seq<User>>)

  class App {
    var token: string
    /** None is a nil slice. */
    var users: Option<seq<User>>

    constructor (users: Option<seq<User>>)
      ensures token == "" && this.users == users
    {
      token := "";
      this.users := users;
    }

    /** The token loop's body: getAccessToken's string is stored even on error, when it is "". */
    method RefreshToken(outcome: Result<string, string>)
      modifies this`token
      ensures token == (if outcome.Success? then outcome.value else "")
    {
      token := if outcome.Success? then outcome.value else "";
    }

    /** The user loop's body: a failed fetch restores `original`, the list held when Run started. */
    method RefreshUsers(original: Option<seq<User>>, fetched: UserFetch)
      modifies this`users
      ensures users == (if fetched.FetchFailed? then original else fetched.users)
    {
      match fetched
      case FetchFailed => users := original;
      case Fetched(newUsers) => users := newUsers;
    }

    /**
     * The processing loop's body: a nil list processes nothing this round; otherwise the
     * groups handed to ProcessUsers, one after the other, are the chunks of nine.
     */
    method ProcessRound() returns (batches: seq<seq<User>>)
      ensures users.None? ==> batches == []
      ensures users.Some? ==> batches == Chunks(users.value, ChunkSize)
    {
      batches := [];
      if users.None? {
        return;
      }
      var all := users.value;
      var i: nat := 0;
      while i < |all|
        invariant batches + Chunks(From(all, i), ChunkSize) == Chunks(all, ChunkSize)
        decreases |all| - i
      {
        var end := i + ChunkSize;
        if end > |all| {
          end := |all|;
        }
        ChunksAt(all, i, ChunkSize);
        assert (batches + [all[i..end]]) + Chunks(From(all, i + ChunkSize), ChunkSize) ==
               batches + ([all[i..end]] + Chunks(From(all, i + ChunkSize), ChunkSize));
        batches := batches + [all[i..end]];
        i := i + ChunkSize;
      }
      assert From(all, i) == [];
      assert batches + [] == batches;
    }
  }

  /** A round hands every user to ProcessUsers exactly once, in list order, in groups of one to nine. */
  lemma RoundCoversUsers(users: seq<User>)
    ensures Flatten(Chunks(users, ChunkSize)) == users
    ensures forall k :: 0 <= k < |Chunks(users, ChunkSize)| ==> 1 <= |Chunks(users, ChunkSize)[k]| <= ChunkSize
  {
    ChunksFlatten(users, ChunkSize);
    ChunksSizes(users, ChunkSize);
  }
}
