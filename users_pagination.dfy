/** The page handler for the users interested in a scheduled event: each raw
    entry is parsed into a user, unparsable entries are skipped, and the
    cursor is set from the last user parsed. */
module UsersPagination {
  import opened Wrappers
  import opened JavaLang
  import opened Entities
  import opened PageFold

  class UsersPaginationAction {
    /** The limits handed to the pagination base class: least, greatest
        and initial page size. */
    const minLimit: nat
    const maxLimit: nat
    const initialLimit: nat
    /** The last item of the latest page and its key: the cursor. */
    var last: Option<User>
    var lastKey: Long

    constructor ()
      ensures minLimit == 1 && maxLimit == 100 && initialLimit == 100
      ensures last == None
    {
      minLimit, maxLimit, initialLimit := 1, 100, 100;
      last, lastKey := None, 0;
    }

    /** `getKey`: a user's key is its snowflake id. */
    function GetKey(user: User): (k: Long)
      ensures k == user.id
    {
      user.id
    }

    /** `handleSuccess`: the page is the users `createUser` parses, in raw
        order; the cursor moves to the last of them. With no parsable entry
        the handler throws and the cursor stays where it was. */
    method HandleSuccess<Raw>(raw: seq<Raw>, createUser: Raw -> Option<User>)
      returns (r: Result<seq<User>, PageError>)
      modifies this`last, this`lastKey
      ensures Parsed(raw, createUser) == [] ==>
                r == Failure(IndexOutOfBounds) && last == old(last) && lastKey == old(lastKey)
      ensures Parsed(raw, createUser) != [] ==>
                && r == Success(Parsed(raw, createUser))
                && last == Some(r.value[|r.value| - 1])
                && lastKey == GetKey(last.value)
    {
      var users: seq<User> := [];
      var i := 0;
      while i < |raw|
        invariant 0 <= i <= |raw|
        invariant users == Parsed(raw[..i], createUser)
        invariant last == old(last) && lastKey == old(lastKey)
      {
        var user := createUser(raw[i]);
        ParsedAppend(raw[..i], raw[i], createUser);
        assert raw[..i + 1] == raw[..i] + [raw[i]];
        if user.Some? {
          users := users + [user.value];
        }
        i := i + 1;
      }
      assert raw[..|raw|] == raw;
      if users == [] {
        return Failure(IndexOutOfBounds);
      }
      last := Some(users[|users| - 1]);
      lastKey := GetKey(last.value);
      r := Success(users);
    }
  }
}
