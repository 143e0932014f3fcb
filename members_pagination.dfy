/** The page handler for the guild members interested in a scheduled event:
    each raw entry's "member" object is parsed into a member, entries whose
    object is missing or unparsable are skipped, and the cursor is set from
    the last member parsed. */
module MembersPagination {
  import opened Wrappers
  import opened JavaLang
  import opened Entities
  import opened PageFold

  /** One entry's parse: take its "member" object (`memberObject`; a missing
      object throws and is skipped), then build the member (`createMember`;
      a parsing failure is skipped). */
  function MemberParser<Raw(!new)>(memberObject: Raw -> Option<Raw>, createMember: Raw -> Option<Member>)
    : (parse: Raw -> Option<Member>)
    ensures forall e :: memberObject(e).None? ==> parse(e).None?
    ensures forall e :: memberObject(e).Some? ==> parse(e) == createMember(memberObject(e).value)
  {
    e => if memberObject(e).Some? then createMember(memberObject(e).value) else None
  }

  class MembersPaginationAction {
    /** The limits handed to the pagination base class: least, greatest
        and initial page size. */
    const minLimit: nat
    const maxLimit: nat
    const initialLimit: nat
    /** The last item of the latest page and its key: the cursor. */
    var last: Option<Member>
    var lastKey: Long

    constructor ()
      ensures minLimit == 1 && maxLimit == 100 && initialLimit == 100
      ensures last == None
    {
      minLimit, maxLimit, initialLimit := 1, 100, 100;
      last, lastKey := None, 0;
    }

    /** `getKey`: a member's key is the id of the user it wraps. */
    function GetKey(member: Member): (k: Long)
      ensures k == member.user.id
    {
      member.Id()
    }

    /** `handleSuccess`: the page is the members parsed from the entries'
        "member" objects, in raw order; the cursor moves to the last of
        them. With no parsable entry the handler throws and the cursor stays
        where it was. */
    method HandleSuccess<Raw(!new)>(raw: seq<Raw>, memberObject: Raw -> Option<Raw>, createMember: Raw -> Option<Member>)
      returns (r: Result<seq<Member>, PageError>)
      modifies this`last, this`lastKey
      ensures var page := Parsed(raw, MemberParser(memberObject, createMember));
              page == [] ==> r == Failure(IndexOutOfBounds) && last == old(last) && lastKey == old(lastKey)
      ensures var page := Parsed(raw, MemberParser(memberObject, createMember));
              page != [] ==>
                && r == Success(page)
                && last == Some(page[|page| - 1])
                && lastKey == GetKey(last.value)
    {
      var parse := MemberParser(memberObject, createMember);
      var users: seq<Member> := [];
      var i := 0;
      while i < |raw|
        invariant 0 <= i <= |raw|
        invariant users == Parsed(raw[..i], parse)
        invariant last == old(last) && lastKey == old(lastKey)
      {
        ParsedAppend(raw[..i], raw[i], parse);
        assert raw[..i + 1] == raw[..i] + [raw[i]];
        var memberData := memberObject(raw[i]);
        if memberData.Some? {
          var user := createMember(memberData.value);
          if user.Some? {
            users := users + [user.value];
          }
        }
        i := i + 1;
      }
      assert raw[..|raw|] == raw;
      if users == [] {
        return Failure(IndexOutOfBounds);
      }
      last := Some(users[|users| - 1]);
      lastKey := GetKey(last.value);
      r := Success(users);
    }
  }
}
