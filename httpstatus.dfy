/**
 * utility/httpstatus.go ErrorHttpStatus: classifies an error text by
 * looking for the keys of a fixed table in the lower-cased text. The Go
 * code ranges over a map, whose iteration order is unspecified, and returns
 * the entry of the first key it finds; so when several keys occur, any of
 * their entries may come back. `Outcomes` is that set of possible answers.
 */
module HttpStatus {
  import opened Text

  datatype Status = Status(code: int, text: string)

  const BadRequest := Status(400, "Bad Request")

  /** `errorStatusMap`. */
  const StatusTable: map<string, Status> := map[
    "duplicate" := Status(400, "Bad Request"),
    "parsing time" := Status(400, "Bad Request"),
    "required" := Status(400, "Bad Request"),
    "invalid" := Status(400, "Bad Request"),
    "not found" := Status(404, "Not Found"),
    "unauthorized" := Status(401, "Unauthorized"),
    "forbidden" := Status(403, "Forbidden"),
    "connection refused" := Status(500, "Internal Server Error")
  ]

  /** The codes the table and the default can give. */
  predicate KnownCode(code: int)
  {
    code == 400 || code == 401 || code == 403 || code == 404 || code == 500
  }

  /** The table keys that occur in the lower-cased error text. */
  function MatchingKeys(err: string): set<string>
  {
    set k | k in StatusTable && Contains(ToLower(err), k)
  }

  /** Every answer ErrorHttpStatus may give for `err`. */
  function Outcomes(err: string): set<Status>
  {
    var keys := MatchingKeys(err);
    if keys == {} then {BadRequest}
    else set k | k in StatusTable && k in keys :: StatusTable[k]
  }

  /**
   * httpstatus.go ErrorHttpStatus: tries the keys in an order the caller
   * cannot know and returns the entry of the first one found, or
   * (400, "Bad Request") when none is.
   */
  method ErrorHttpStatus(err: string) returns (code: int, status: string)
    ensures Status(code, status) in Outcomes(err)
    ensures MatchingKeys(err) == {} ==> code == 400 && status == "Bad Request"
    ensures MatchingKeys(err) != {} ==> exists k | k in MatchingKeys(err) :: StatusTable[k] == Status(code, status)
    ensures KnownCode(code)
  {
    var lowered := ToLower(err);
    var remaining := StatusTable.Keys;
    while remaining != {}
      invariant remaining <= StatusTable.Keys
      invariant forall k | k in StatusTable && k !in remaining :: !Contains(lowered, k)
      decreases remaining
    {
      var key :| key in remaining;
      if Contains(lowered, key) {
        assert key in MatchingKeys(err);
        TableCodesKnown();
        return StatusTable[key].code, StatusTable[key].text;
      }
      remaining := remaining - {key};
    }
    assert MatchingKeys(err) == {};
    return 400, "Bad Request";
  }

  lemma TableCodesKnown()
    ensures forall k | k in StatusTable :: KnownCode(StatusTable[k].code)
  {
  }

  /** Some answer is always possible, and every possible answer has a known code. */
  lemma OutcomesWellFormed(err: string)
    ensures Outcomes(err) != {}
    ensures forall s | s in Outcomes(err) :: KnownCode(s.code)
  {
    TableCodesKnown();
    var keys := MatchingKeys(err);
    if keys != {} {
      var k :| k in keys;
      assert StatusTable[k] in Outcomes(err);
    }
  }

  /** The classification ignores letter case: an error and its lower-cased text have the same answers. */
  lemma OutcomesIgnoreCase(err: string)
    ensures Outcomes(err) == Outcomes(ToLower(err))
  {
    ToLowerIdempotent(err);
  }

  /** An error text that holds no table key is a 400 Bad Request, whatever the order. */
  lemma UnmatchedIsBadRequest(err: string)
    requires forall k | k in StatusTable :: !Contains(ToLower(err), k)
    ensures Outcomes(err) == {BadRequest}
  {
  }

  /** Letters a text must lack for "required" to be the only key it can hold. */
  predicate LacksOtherKeys(e: string)
  {
    && 'v' !in e && 's' !in e && 'b' !in e && 'z' !in e
    && ('o' !in e || 'f' !in e)
    && ('l' !in e || 'p' !in e)
  }

  lemma OnlyRequiredKey(e: string, k: string)
    requires LacksOtherKeys(e)
    requires k in StatusTable && Contains(e, k)
    ensures k == "required"
  {
    TableKeys();
    if k == "invalid" {
      ContainsNeedsEveryChar(e, k, 'v');
    } else if k == "parsing time" || k == "connection refused" {
      ContainsNeedsEveryChar(e, k, 's');
    } else if k == "forbidden" {
      ContainsNeedsEveryChar(e, k, 'b');
    } else if k == "unauthorized" {
      ContainsNeedsEveryChar(e, k, 'z');
    } else if k == "not found" {
      ContainsNeedsEveryChar(e, k, if 'o' !in e then 'o' else 'f');
    } else if k == "duplicate" {
      ContainsNeedsEveryChar(e, k, if 'l' !in e then 'l' else 'p');
    }
  }

  /**
   * A lower-case text that holds "required" and lacks the letters of
   * LacksOtherKeys can match no other key, so its only answer is 400.
   */
  lemma OnlyRequiredMatches(e: string)
    requires ToLower(e) == e
    requires LacksOtherKeys(e)
    requires Contains(e, "required")
    ensures MatchingKeys(e) == {"required"}
    ensures Outcomes(e) == {BadRequest}
  {
    forall k | k in MatchingKeys(e) ensures k == "required" {
      OnlyRequiredKey(e, k);
    }
    assert "required" in MatchingKeys(e);
  }

  /**
   * The message ValidationErrorHandle gives for a `required` failure,
   * lower(field) + " required", classifies as 400 Bad Request whatever the
   * map order, provided the lower-cased field name lacks the letters of
   * LacksOtherKeys.
   */
  lemma RequiredMessageIsBadRequest(field: string)
    requires LacksOtherKeys(ToLower(field))
    ensures Outcomes(ToLower(field) + " required") == {BadRequest}
  {
    var low := ToLower(field);
    var e := low + " required";
    RequiredSuffix();
    ToLowerAppend(low, " required");
    ToLowerIdempotent(field);
    assert ToLower(e) == e;
    LacksOtherKeysAppend(low, " required");
    ContainsSuffix(low + " ", "required");
    assert e == (low + " ") + "required";
    OnlyRequiredMatches(e);
  }

  lemma RequiredSuffix()
    ensures ToLower(" required") == " required"
    ensures 'o' !in " required" && 'f' !in " required" && 'l' !in " required" && 'p' !in " required"
    ensures LacksOtherKeys(" required")
  {
  }

  lemma LacksOtherKeysAppend(a: string, b: string)
    requires LacksOtherKeys(a)
    requires 'o' !in b && 'f' !in b && 'l' !in b && 'p' !in b && LacksOtherKeys(b)
    ensures LacksOtherKeys(a + b)
  {
  }

  lemma TableKeys()
    ensures StatusTable.Keys == {"duplicate", "parsing time", "required", "invalid",
                                 "not found", "unauthorized", "forbidden", "connection refused"}
  {
  }
}
