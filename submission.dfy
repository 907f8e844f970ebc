/**
 * The submission gate of app.py: `can_submit`, the ordered list of missing
 * fields shown when it fails, and the conversion of the link lifetime from
 * days to seconds. The endpoint URL, the chosen video, the player's name and
 * number and the three S3 settings read from the environment are inputs.
 */
module Submission {
  import opened Wrappers
  import opened S3Naming

  /** What the page knows when the button is drawn; the S3 settings are `os.getenv` results. */
  datatype FormState = FormState(apiUrl: string, videoChosen: bool, playerName: string, playerNumber: int,
                                 bucketName: Option<string>, accessKeyId: Option<string>,
                                 secretAccessKey: Option<string>)

  /** All three S3 settings are truthy. */
  predicate CredentialsGiven(f: FormState)
  {
    Truthy(f.bucketName) && Truthy(f.accessKeyId) && Truthy(f.secretAccessKey)
  }

  /** `can_submit`: every required input is truthy and the player number is positive. */
  predicate CanSubmit(f: FormState)
  {
    f.apiUrl != "" && f.videoChosen && f.playerName != "" && f.playerNumber > 0 && CredentialsGiven(f)
  }

  /** The inputs `missing_fields` can report. */
  datatype Field = ApiUrl | VideoFile | PlayerName | PlayerNumber | Credentials

  /** The text shown for each field in the warning. */
  function Label(field: Field): string
  {
    match field
    case ApiUrl => "API Endpoint URL"
    case VideoFile => "Video File"
    case PlayerName => "Player Name"
    case PlayerNumber => "Player Number"
    case Credentials => "S3 Credentials"
  }

  /** Different fields are shown with different texts. */
  lemma LabelInjective(a: Field, b: Field)
    requires a != b
    ensures Label(a) != Label(b)
  {
    assert Label(ApiUrl)[0] == 'A' && Label(VideoFile)[0] == 'V' && Label(Credentials)[0] == 'S';
    assert Label(PlayerName)[0] == 'P' && Label(PlayerNumber)[0] == 'P';
    assert Label(PlayerName)[8] == 'a' && Label(PlayerNumber)[8] == 'u';
  }

  /** The order in which missing fields are reported. */
  const FieldOrder := [ApiUrl, VideoFile, PlayerName, PlayerNumber, Credentials]

  /** The check of `missing_fields` for `field` fails on the form. */
  predicate Fails(f: FormState, field: Field)
  {
    match field
    case ApiUrl => f.apiUrl == ""
    case VideoFile => !f.videoChosen
    case PlayerName => f.playerName == ""
    case PlayerNumber => f.playerNumber == 0
    case Credentials => !CredentialsGiven(f)
  }

  /** The fields of `fields` whose check fails, in their order. */
  function Failing(f: FormState, fields: seq<Field>): seq<Field>
  {
    if fields == [] then [] else (if Fails(f, fields[0]) then [fields[0]] else []) + Failing(f, fields[1..])
  }

  /** The fields reported as missing: those of `FieldOrder` whose check fails. */
  function Missing(f: FormState): seq<Field>
  {
    Failing(f, FieldOrder)
  }

  /** Filtering a longer list appends the new field when its check fails. */
  lemma {:induction false} FailingSnoc(f: FormState, fields: seq<Field>, field: Field)
    ensures Failing(f, fields + [field]) == Failing(f, fields) + (if Fails(f, field) then [field] else [])
    decreases |fields|
  {
    if fields == [] {
      assert ([] + [field])[1..] == [];
    } else {
      assert (fields + [field])[1..] == fields[1..] + [field];
      FailingSnoc(f, fields[1..], field);
    }
  }

  /** A field is kept exactly when it is in the list and its check fails. */
  lemma {:induction false} FailingMembers(f: FormState, fields: seq<Field>, field: Field)
    ensures field in Failing(f, fields) <==> field in fields && Fails(f, field)
    decreases |fields|
  {
    if fields != [] {
      FailingMembers(f, fields[1..], field);
      assert fields == [fields[0]] + fields[1..];
    }
  }

  /** Nothing is kept when no check fails. */
  lemma {:induction false} FailingNone(f: FormState, fields: seq<Field>)
    requires forall i :: 0 <= i < |fields| ==> !Fails(f, fields[i])
    ensures Failing(f, fields) == []
    decreases |fields|
  {
    if fields != [] {
      FailingNone(f, fields[1..]);
    }
  }

  /** Filtering a list without repetitions gives a list without repetitions. */
  lemma {:induction false} FailingDistinct(f: FormState, fields: seq<Field>)
    requires forall i, j :: 0 <= i < j < |fields| ==> fields[i] != fields[j]
    ensures forall i, j :: 0 <= i < j < |Failing(f, fields)| ==> Failing(f, fields)[i] != Failing(f, fields)[j]
    decreases |fields|
  {
    if fields != [] {
      var rest := Failing(f, fields[1..]);
      FailingDistinct(f, fields[1..]);
      FailingMembers(f, fields[1..], fields[0]);
      assert fields[0] !in fields[1..];
      var r := Failing(f, fields);
      if Fails(f, fields[0]) {
        assert r == [fields[0]] + rest;
        forall i, j | 0 <= i < j < |r|
          ensures r[i] != r[j]
        {
          if i == 0 {
            assert r[j] == rest[j - 1];
            assert r[j] in rest;
          } else {
            assert r[i] == rest[i - 1] && r[j] == rest[j - 1];
          }
        }
      } else {
        assert r == rest;
      }
    }
  }

  /** The `missing_fields` list, built by successive appends in the order of the checks. */
  method MissingFields(f: FormState) returns (missing: seq<Field>)
    ensures missing == Missing(f)
  {
    missing := [];
    if f.apiUrl == "" {
      missing := missing + [ApiUrl];
    }
    FailingSnoc(f, [], ApiUrl);
    assert missing == Failing(f, FieldOrder[..1]);
    if !f.videoChosen {
      missing := missing + [VideoFile];
    }
    FailingSnoc(f, FieldOrder[..1], VideoFile);
    assert FieldOrder[..2] == FieldOrder[..1] + [VideoFile];
    assert missing == Failing(f, FieldOrder[..2]);
    if f.playerName == "" {
      missing := missing + [PlayerName];
    }
    FailingSnoc(f, FieldOrder[..2], PlayerName);
    assert FieldOrder[..3] == FieldOrder[..2] + [PlayerName];
    assert missing == Failing(f, FieldOrder[..3]);
    if f.playerNumber == 0 {
      missing := missing + [PlayerNumber];
    }
    FailingSnoc(f, FieldOrder[..3], PlayerNumber);
    assert FieldOrder[..4] == FieldOrder[..3] + [PlayerNumber];
    assert missing == Failing(f, FieldOrder[..4]);
    if !(Truthy(f.bucketName) && Truthy(f.accessKeyId) && Truthy(f.secretAccessKey)) {
      missing := missing + [Credentials];
    }
    FailingSnoc(f, FieldOrder[..4], Credentials);
    assert FieldOrder == FieldOrder[..4] + [Credentials];
  }

  /** Each field is listed exactly when its check fails, and at most once. */
  lemma MissingMembers(f: FormState)
    ensures forall field :: field in Missing(f) <==> Fails(f, field)
    ensures forall i, j :: 0 <= i < j < |Missing(f)| ==> Missing(f)[i] != Missing(f)[j]
  {
    forall field
      ensures field in Missing(f) <==> Fails(f, field)
    {
      FailingMembers(f, FieldOrder, field);
      assert field in FieldOrder by {
        match field
        case ApiUrl => assert FieldOrder[0] == field;
        case VideoFile => assert FieldOrder[1] == field;
        case PlayerName => assert FieldOrder[2] == field;
        case PlayerNumber => assert FieldOrder[3] == field;
        case Credentials => assert FieldOrder[4] == field;
      }
    }
    FailingDistinct(f, FieldOrder);
  }

  /** With a player number that is not negative, nothing is reported missing exactly when the form can be submitted. */
  lemma MissingEmptyIffCanSubmit(f: FormState)
    requires f.playerNumber >= 0
    ensures Missing(f) == [] <==> CanSubmit(f)
  {
    MissingMembers(f);
    if CanSubmit(f) {
      FailingNone(f, FieldOrder);
    } else {
      var field := if f.apiUrl == "" then ApiUrl else if !f.videoChosen then VideoFile
                   else if f.playerName == "" then PlayerName else if f.playerNumber == 0 then PlayerNumber
                   else Credentials;
      assert Fails(f, field);
    }
  }

  /** A negative player number blocks submission but is not reported: `missing_fields` checks `== 0`, not `<= 0`. */
  lemma NegativeNumberUnreported()
    ensures var f := FormState("http://api", true, "Alex Doe", -1, Some("bucket"), Some("key"), Some("secret"));
            Missing(f) == [] && !CanSubmit(f)
  {
    var f := FormState("http://api", true, "Alex Doe", -1, Some("bucket"), Some("key"), Some("secret"));
    FailingNone(f, FieldOrder);
  }

  // ----- Link lifetime -------------------------------------------------------

  /** The lifetime of the presigned links, in days. */
  const UrlExpirationDays := 7

  /** `url_expiration = days * 24 * 60 * 60`. */
  function ExpirationSeconds(days: int): int
  {
    days * 24 * 60 * 60
  }

  /** The app's 7 days are the manager's default lifetime of 604800 seconds. */
  lemma AppExpirationIsDefault()
    ensures ExpirationSeconds(UrlExpirationDays) == DefaultExpiration
  {
  }
}
