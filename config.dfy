/**
 * The back-end settings object (backend/src/config.py): the API-key list
 * assembled in `__init__`, the environment flags, and the Firebase
 * credentials with the private key's escaped newlines restored. The
 * environment and `.env` loading are replaced by constructor parameters.
 */
module Config {
  import opened Text
  import opened Sequences

  /** Each piece stripped of surrounding whitespace. */
  function StrippedPieces(pieces: seq<string>): (r: seq<string>)
    ensures |r| == |pieces|
    ensures forall i | 0 <= i < |pieces| :: r[i] == Strip(pieces[i])
  {
    seq(|pieces|, i requires 0 <= i < |pieces| => Strip(pieces[i]))
  }

  /** The comprehension's guard `if key.strip()`: a non-empty string is truthy. */
  function Present(): string -> bool
  {
    (k: string) => k != []
  }

  /** `[key.strip() for key in additional_keys.split(",") if key.strip()]` (line 87). */
  function ExtraKeys(additional: string): seq<string>
  {
    Filter(StrippedPieces(Split(additional, ',')), Present())
  }

  /** The key list `__init__` leaves behind (lines 81-87). */
  function ParseApiKeys(apiKey: string, loadedApiKeys: seq<string>, additional: string): seq<string>
  {
    (if apiKey != [] then [apiKey] else loadedApiKeys) + (if additional != [] then ExtraKeys(additional) else [])
  }

  /** Every extra key is non-empty, trimmed and comma-free. */
  lemma {:induction false} ExtraKeysAreClean(additional: string)
    ensures forall k | k in ExtraKeys(additional) :: k != [] && Trimmed(k) && ',' !in k
  {
    CommaFreePiecesStripClean(Split(additional, ','));
  }

  lemma {:induction false} CommaFreePiecesStripClean(pieces: seq<string>)
    requires forall i | 0 <= i < |pieces| :: ',' !in pieces[i]
    ensures forall k | k in Filter(StrippedPieces(pieces), Present()) :: k != [] && Trimmed(k) && ',' !in k
  {
    var stripped := StrippedPieces(pieces);
    forall k | k in Filter(stripped, Present())
      ensures k != [] && Trimmed(k) && ',' !in k
    {
      assert k in stripped;
      var i :| 0 <= i < |stripped| && stripped[i] == k;
      StrippedPieceIsClean(pieces[i]);
    }
  }

  lemma StrippedPieceIsClean(piece: string)
    requires ',' !in piece
    ensures Trimmed(Strip(piece)) && ',' !in Strip(piece)
  {
    StripShape(piece);
  }

  /** A string is an extra key exactly when it is a non-empty stripped piece of the list. */
  lemma ExtraKeysMembership(additional: string, k: string)
    ensures k in ExtraKeys(additional) <==> k != [] && exists piece | piece in Split(additional, ',') :: Strip(piece) == k
  {
    if k in ExtraKeys(additional) {
      ExtraKeyHasPiece(additional, k);
    }
    if k != [] && exists piece | piece in Split(additional, ',') :: Strip(piece) == k {
      PieceGivesExtraKey(additional, k);
    }
  }

  lemma {:induction false} ExtraKeyHasPiece(additional: string, k: string)
    requires k in ExtraKeys(additional)
    ensures k != [] && exists piece | piece in Split(additional, ',') :: Strip(piece) == k
  {
    var pieces := Split(additional, ',');
    var stripped := StrippedPieces(pieces);
    assert k in stripped && Present()(k);
    var i :| 0 <= i < |stripped| && stripped[i] == k;
    assert pieces[i] in pieces;
  }

  lemma {:induction false} PieceGivesExtraKey(additional: string, k: string)
    requires k != [] && exists piece | piece in Split(additional, ',') :: Strip(piece) == k
    ensures k in ExtraKeys(additional)
  {
    var pieces := Split(additional, ',');
    var stripped := StrippedPieces(pieces);
    var piece :| piece in pieces && Strip(piece) == k;
    var i :| 0 <= i < |pieces| && pieces[i] == piece;
    assert stripped[i] == k;
    assert Present()(k);
  }

  /** The extra keys keep the order of the comma-separated list. */
  lemma KeysKeepListOrder(additional: string)
    ensures IsSubsequence(ExtraKeys(additional), StrippedPieces(Split(additional, ',')))
  {
    FilterIsSubsequence(StrippedPieces(Split(additional, ',')), Present());
  }

  /** An empty or all-blank `API_KEYS` adds nothing; without `api_key` the loaded list is kept. */
  lemma {:induction false} BlankListAddsNothing(apiKey: string, loadedApiKeys: seq<string>, additional: string)
    requires forall i | 0 <= i < |additional| :: IsSpace(additional[i]) || additional[i] == ','
    ensures ParseApiKeys(apiKey, loadedApiKeys, additional) == if apiKey != [] then [apiKey] else loadedApiKeys
  {
    var pieces := Split(additional, ',');
    var stripped := StrippedPieces(pieces);
    forall x | x in stripped ensures !Present()(x) {
      var i :| 0 <= i < |stripped| && stripped[i] == x;
      BlankPieceStripsAway(additional, i);
    }
    FilterNone(stripped, Present());
    assert ExtraKeys(additional) == [];
  }

  /** A piece of a list made of blanks and commas strips to nothing. */
  lemma BlankPieceStripsAway(additional: string, i: nat)
    requires forall j | 0 <= j < |additional| :: IsSpace(additional[j]) || additional[j] == ','
    requires i < |Split(additional, ',')|
    ensures Strip(Split(additional, ',')[i]) == []
  {
    var pieces := Split(additional, ',');
    PieceCharsInJoin(pieces, ',', i);
    forall j | 0 <= j < |pieces[i]| ensures IsSpace(pieces[i][j]) {
      assert pieces[i][j] in additional;
    }
    StripEmptyIffBlank(pieces[i]);
  }

  /** Keys are not de-duplicated: a key given both ways is listed twice. */
  lemma DuplicateKeyKept()
    ensures ParseApiKeys("k", [], "k") == ["k", "k"]
  {
    SingleExtraKey();
  }

  lemma SingleExtraKey()
    ensures ExtraKeys("k") == ["k"]
  {
    SplitSingle();
    StripK();
    assert StrippedPieces(["k"]) == [] + ["k"];
    FilterSnoc([], "k", Present());
  }

  lemma SplitSingle()
    ensures Split("k", ',') == ["k"]
  {
    assert "k"[1..] == [];
    assert Split([], ',') == [[]];
  }

  lemma StripK()
    ensures Strip("k") == "k"
  {
    assert !IsSpace('k');
    assert TrimLeft("k") == "k";
  }

  /** Python's `str.replace("\\n", "\n")`: each backslash-n pair, scanned left to right, becomes a newline. */
  function UnescapeNewlines(s: string): (r: string)
    ensures |r| <= |s|
    ensures '\\' !in s ==> r == s
  {
    if s == [] then []
    else if |s| >= 2 && s[0] == '\\' && s[1] == 'n' then "\n" + UnescapeNewlines(s[2..])
    else [s[0]] + UnescapeNewlines(s[1..])
  }

  /** No backslash is followed by an 'n'. */
  predicate NoEscapedNewline(t: string)
  {
    forall i | 0 <= i < |t| - 1 :: !(t[i] == '\\' && t[i + 1] == 'n')
  }

  lemma UnescapedStart(s: string)
    requires s != [] && s[0] != 'n'
    ensures UnescapeNewlines(s) != [] && UnescapeNewlines(s)[0] != 'n'
  {
  }

  /** After the replacement no escaped newline is left. */
  lemma {:induction false} UnescapeLeavesNoEscape(s: string)
    ensures NoEscapedNewline(UnescapeNewlines(s))
  {
    if s != [] {
      if |s| >= 2 && s[0] == '\\' && s[1] == 'n' {
        UnescapeLeavesNoEscape(s[2..]);
        var rest := UnescapeNewlines(s[2..]);
        assert UnescapeNewlines(s) == "\n" + rest;
        forall i | 0 <= i < |rest| ensures ("\n" + rest)[i + 1] == rest[i] { }
      } else {
        UnescapeLeavesNoEscape(s[1..]);
        var rest := UnescapeNewlines(s[1..]);
        if s[0] == '\\' && |s| >= 2 {
          UnescapedStart(s[1..]);
        }
        assert UnescapeNewlines(s) == [s[0]] + rest;
        forall i | 0 <= i < |rest| ensures ([s[0]] + rest)[i + 1] == rest[i] { }
      }
    }
  }

  /** The inverse direction: each newline written as backslash-n. */
  function EscapeNewlines(t: string): (s: string)
    ensures |s| >= |t|
  {
    if t == [] then []
    else if t[0] == '\n' then "\\n" + EscapeNewlines(t[1..])
    else [t[0]] + EscapeNewlines(t[1..])
  }

  /** A key without backslashes survives being escaped for the environment and read back. */
  lemma {:induction false} UnescapeUndoesEscape(t: string)
    requires '\\' !in t
    ensures UnescapeNewlines(EscapeNewlines(t)) == t
  {
    if t != [] {
      UnescapeUndoesEscape(t[1..]);
      var rest := EscapeNewlines(t[1..]);
      if t[0] == '\n' {
        assert EscapeNewlines(t) == "\\n" + rest;
        assert (EscapeNewlines(t))[2..] == rest;
      } else {
        assert EscapeNewlines(t) == [t[0]] + rest;
        assert (EscapeNewlines(t))[1..] == rest;
      }
    }
  }

  /** The dictionary `get_firebase_credentials` returns (lines 66-76). */
  datatype Credentials = Credentials(
    kind: string,
    projectId: string,
    privateKey: string,
    clientEmail: string,
    tokenUri: string,
    authUri: string,
    authProviderCertUrl: string)

  class Settings {
    var apiEnv: string
    var apiKey: string
    var apiKeys: seq<string>
    var firebaseProjectId: string
    var firebasePrivateKey: string
    var firebaseClientEmail: string

    /**
     * `__init__` (lines 78-87) after the fields are loaded: `loadedApiKeys` is
     * the list pydantic filled in, `additional` the `API_KEYS` variable
     * ("" when unset).
     */
    constructor(apiEnv: string, apiKey: string, loadedApiKeys: seq<string>, additional: string,
                firebaseProjectId: string, firebasePrivateKey: string, firebaseClientEmail: string)
      ensures this.apiEnv == apiEnv && this.apiKey == apiKey
      ensures this.firebaseProjectId == firebaseProjectId && this.firebasePrivateKey == firebasePrivateKey
      ensures this.firebaseClientEmail == firebaseClientEmail
      ensures apiKeys == ParseApiKeys(apiKey, loadedApiKeys, additional)
    {
      this.apiEnv := apiEnv;
      this.apiKey := apiKey;
      this.firebaseProjectId := firebaseProjectId;
      this.firebasePrivateKey := firebasePrivateKey;
      this.firebaseClientEmail := firebaseClientEmail;
      this.apiKeys := loadedApiKeys;
      new;
      if apiKey != [] {
        apiKeys := [apiKey];
      }
      if additional != [] {
        apiKeys := apiKeys + ExtraKeys(additional);
      }
    }

    /** `is_development` (lines 56-59). */
    predicate IsDevelopment()
      reads this
    {
      Lower(apiEnv) == "development"
    }

    /** `is_production` (lines 61-64). */
    predicate IsProduction()
      reads this
    {
      Lower(apiEnv) == "production"
    }

    /** `get_firebase_credentials` (lines 66-76). */
    function FirebaseCredentials(): (c: Credentials)
      reads this
      ensures c.kind == "service_account"
      ensures c.projectId == firebaseProjectId && c.clientEmail == firebaseClientEmail
      ensures c.privateKey == UnescapeNewlines(firebasePrivateKey)
      ensures NoEscapedNewline(c.privateKey)
      ensures '\\' !in firebasePrivateKey ==> c.privateKey == firebasePrivateKey
      ensures c.tokenUri == "https://oauth2.googleapis.com/token"
      ensures c.authUri == "https://accounts.google.com/o/oauth2/auth"
      ensures c.authProviderCertUrl == "https://www.googleapis.com/oauth2/v1/certs"
    {
      UnescapeLeavesNoEscape(firebasePrivateKey);
      Credentials(
        "service_account",
        firebaseProjectId,
        UnescapeNewlines(firebasePrivateKey),
        firebaseClientEmail,
        "https://oauth2.googleapis.com/token",
        "https://accounts.google.com/o/oauth2/auth",
        "https://www.googleapis.com/oauth2/v1/certs")
    }
  }

  /** The two flags never hold together; the comparison ignores case. */
  lemma EnvironmentFlags(settings: Settings)
    ensures !(settings.IsDevelopment() && settings.IsProduction())
    ensures settings.apiEnv == "Production" ==> settings.IsProduction() && !settings.IsDevelopment()
  {
    if settings.apiEnv == "Production" {
      LowerOfCapitalised("Production");
      assert Lower("Production") == "production";
    }
  }
}
