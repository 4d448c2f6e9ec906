/**
 * The `transaction_successful` event: its initialisation, the URL it links to and the
 * check that its `other` data carries every required key.
 */
module TransactionEvent {
  import opened Common

  /** The host platform's educational level for events that are neither teaching nor participating. */
  const LevelOther := 0

  /** The keys `validate_data` requires in `other`, in the order it checks them. */
  const RequiredKeys: seq<string> := ["itemid", "component", "paymentid", "invoice"]

  /** The exception `validate_data` throws. */
  datatype CodingException = CodingException(message: string)

  /** A relative URL with one query parameter `id`. */
  datatype MoodleUrl = MoodleUrl(path: string, id: int)

  /** The message thrown when `key` is not set in `other`. */
  function MissingKeyMessage(key: string): string {
    "The '" + key + "' value must be set in other."
  }

  /** The data fields of the event that `init` writes. */
  class TransactionSuccessful {
    var crud: string
    var edulevel: int
    var courseid: int
    var other: map<string, Value>

    constructor (courseid: int, other: map<string, Value>)
      ensures this.courseid == courseid && this.other == other
    {
      this.courseid := courseid;
      this.other := other;
      crud := "";
      edulevel := 0;
    }

    /** The event creates something and is of level "other"; nothing else changes. */
    method Init()
      modifies this
      ensures crud == "c" && edulevel == LevelOther
      ensures courseid == old(courseid) && other == old(other)
    {
      crud := "c";
      edulevel := LevelOther;
    }
  }

  /** The URL an event about course `courseid` links to; none below course id 1. */
  function GetUrl(courseid: int): (r: Option<MoodleUrl>)
    ensures r.None? <==> courseid < 1
    ensures r.Some? ==> r.value.path == "/course/view.php" && r.value.id == courseid
  {
    if courseid < 1 then None else Some(MoodleUrl("/course/view.php", courseid))
  }

  /**
   * The custom validation of the event: the parent check first, then the four
   * required keys of `other` one after the other.
   */
  function ValidateData(parent: Outcome<CodingException>, other: map<string, Value>): (r: Outcome<CodingException>)
    ensures r.Pass? <==> parent.Pass? && forall k :: k in RequiredKeys ==> IsSet(other, k)
    ensures parent.Fail? ==> r == parent
    ensures parent.Pass? && r.Fail? ==>
      exists i :: 0 <= i < |RequiredKeys| && !IsSet(other, RequiredKeys[i])
        && (forall j :: 0 <= j < i ==> IsSet(other, RequiredKeys[j]))
        && r.error == CodingException(MissingKeyMessage(RequiredKeys[i]))
  {
    assert RequiredKeys[0] == "itemid" && RequiredKeys[1] == "component";
    assert RequiredKeys[2] == "paymentid" && RequiredKeys[3] == "invoice";
    if parent.Fail? then parent
    else if !IsSet(other, "itemid") then Fail(CodingException(MissingKeyMessage("itemid")))
    else if !IsSet(other, "component") then Fail(CodingException(MissingKeyMessage("component")))
    else if !IsSet(other, "paymentid") then Fail(CodingException(MissingKeyMessage("paymentid")))
    else if !IsSet(other, "invoice") then Fail(CodingException(MissingKeyMessage("invoice")))
    else Pass
  }

  /** Two missing keys: the error names the one checked first. */
  lemma FirstMissingKeyIsReported(other: map<string, Value>, i: nat, j: nat)
    requires i < j < |RequiredKeys|
    requires !IsSet(other, RequiredKeys[i]) && !IsSet(other, RequiredKeys[j])
    ensures ValidateData(Pass, other).Fail?
    ensures ValidateData(Pass, other).error.message != MissingKeyMessage(RequiredKeys[j])
  {
    var r := ValidateData(Pass, other);
    var k :| 0 <= k < |RequiredKeys| && !IsSet(other, RequiredKeys[k])
      && (forall m :: 0 <= m < k ==> IsSet(other, RequiredKeys[m]))
      && r.error == CodingException(MissingKeyMessage(RequiredKeys[k]));
    assert k <= i;
    MessageNamesKey(RequiredKeys[k], RequiredKeys[j]);
  }

  /** Different keys give different messages. */
  lemma MessageNamesKey(a: string, b: string)
    requires a != b
    ensures MissingKeyMessage(a) != MissingKeyMessage(b)
  {
    var tail := "' value must be set in other.";
    assert MissingKeyMessage(a)[5..] == a + tail && MissingKeyMessage(b)[5..] == b + tail;
    assert |a + tail| == |b + tail| ==> (a + tail)[..|a|] == a && (b + tail)[..|b|] == b;
  }
}
