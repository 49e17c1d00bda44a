/** Application settings (app/config.py). The settings are read once and
    never change, so they are a value; `api_keys_list` and
    `cors_origins_list` are its two derived properties. */
module Config {
  import opened Text

  datatype Settings = Settings(
    hfToken: string,
    modelName: string,
    hfEndpointUrl: string,
    apiKeys: string,
    host: string,
    port: int,
    logLevel: string,
    maxNewTokens: int,
    temperature: real,
    requestTimeout: real,
    systemPrompt: string,
    corsOrigins: string)
  {
    /** `api_keys_list`: the configured keys, in the order written. */
    function ApiKeysList(): (keys: seq<string>)
      ensures apiKeys == [] ==> keys == []
      ensures forall i :: 0 <= i < |keys| ==> keys[i] != [] && IsStripped(keys[i]) && ',' !in keys[i]
    {
      if apiKeys == [] then [] else ParseCommaList(apiKeys)
    }

    /** `cors_origins_list`: `["*"]` for an empty or a lone `"*"` setting,
        the comma list otherwise. */
    function CorsOriginsList(): (origins: seq<string>)
      ensures corsOrigins == [] || corsOrigins == "*" ==> origins == ["*"]
      ensures forall i :: 0 <= i < |origins| ==> origins[i] != [] && IsStripped(origins[i]) && ',' !in origins[i]
    {
      if corsOrigins == [] || corsOrigins == "*" then ["*"] else ParseCommaList(corsOrigins)
    }
  }

  /** `[p.strip() for p in pieces if p.strip()]`. */
  function KeepStrippedNonEmpty(pieces: seq<string>): (kept: seq<string>)
    ensures |kept| <= |pieces|
    ensures forall i :: 0 <= i < |kept| ==> kept[i] != [] && IsStripped(kept[i])
  {
    if pieces == [] then [] else KeptPiece(pieces[0]) + KeepStrippedNonEmpty(pieces[1..])
  }

  /** What the comprehension contributes for one piece. */
  function KeptPiece(piece: string): seq<string>
  {
    var stripped := Strip(piece);
    if stripped == [] then [] else [stripped]
  }

  /** The parser both properties share: split on commas, strip every piece,
      drop the empty ones. */
  function ParseCommaList(s: string): (items: seq<string>)
    ensures forall i :: 0 <= i < |items| ==> items[i] != [] && IsStripped(items[i]) && ',' !in items[i]
  {
    var pieces := SplitOnComma(s);
    var items := KeepStrippedNonEmpty(pieces);
    forall i | 0 <= i < |items| ensures ',' !in items[i] {
      KeptComeFromPieces(pieces, i);
    }
    items
  }

  /** Every kept item is the stripped form of some piece, so it holds no
      character the pieces do not hold. */
  lemma {:induction false} KeptComeFromPieces(pieces: seq<string>, i: nat)
    requires i < |KeepStrippedNonEmpty(pieces)|
    ensures exists j :: 0 <= j < |pieces| && KeepStrippedNonEmpty(pieces)[i] == Strip(pieces[j])
    ensures forall c :: c in KeepStrippedNonEmpty(pieces)[i] ==> exists j :: 0 <= j < |pieces| && c in pieces[j]
  {
    var j := KeptSource(pieces, i);
    var kept := KeepStrippedNonEmpty(pieces)[i];
    forall c | c in kept ensures exists j :: 0 <= j < |pieces| && c in pieces[j] {
      StripInside(pieces[j], c);
    }
  }

  /** The index of the piece a kept item was stripped from. */
  lemma {:induction false} KeptSource(pieces: seq<string>, i: nat) returns (j: nat)
    requires i < |KeepStrippedNonEmpty(pieces)|
    ensures j < |pieces| && KeepStrippedNonEmpty(pieces)[i] == Strip(pieces[j])
  {
    var head := KeptPiece(pieces[0]);
    var rest := KeepStrippedNonEmpty(pieces[1..]);
    if head != [] && i == 0 {
      j := 0;
    } else {
      var i' := i - |head|;
      assert KeepStrippedNonEmpty(pieces)[i] == rest[i'];
      var j' := KeptSource(pieces[1..], i');
      j := j' + 1;
    }
  }

  lemma StripInside(s: string, c: char)
    requires c in Strip(s)
    ensures c in s
  {
    var lo := |s| - |TrimLeft(s)|;
    var k :| 0 <= k < |Strip(s)| && Strip(s)[k] == c;
    assert s[lo + k] == c;
  }

  /** The comprehension keeps order: it distributes over concatenation. */
  lemma {:induction false} KeepDistributes(a: seq<string>, b: seq<string>)
    ensures KeepStrippedNonEmpty(a + b) == KeepStrippedNonEmpty(a) + KeepStrippedNonEmpty(b)
  {
    if a == [] {
      assert a + b == b;
    } else {
      var h := KeptPiece(a[0]);
      var ka, kb := KeepStrippedNonEmpty(a[1..]), KeepStrippedNonEmpty(b);
      assert KeepStrippedNonEmpty(a + b) == h + (ka + kb) by {
        TailOfConcat(a, b);
        KeepDistributes(a[1..], b);
      }
      ConcatAssociates(h, ka, kb);
    }
  }

  /** A piece that does not strip to nothing is kept, stripped. */
  lemma {:induction false} KeptPieceListed(pieces: seq<string>, j: nat)
    requires j < |pieces| && Strip(pieces[j]) != []
    ensures Strip(pieces[j]) in KeepStrippedNonEmpty(pieces)
  {
    var before, piece, after := pieces[..j], pieces[j], pieces[j + 1..];
    assert pieces == before + ([piece] + after);
    KeepDistributes(before, [piece] + after);
    KeepDistributes([piece], after);
    assert KeepStrippedNonEmpty([piece]) == [Strip(piece)] by {
      assert [piece][1..] == [];
    }
  }

  /** Pieces that are already stripped and non-empty all survive, unchanged. */
  lemma {:induction false} KeepIdentity(pieces: seq<string>)
    requires forall i :: 0 <= i < |pieces| ==> pieces[i] != [] && IsStripped(pieces[i])
    ensures KeepStrippedNonEmpty(pieces) == pieces
  {
    if pieces != [] {
      StripKeepsStripped(pieces[0]);
      KeepIdentity(pieces[1..]);
      assert KeptPiece(pieces[0]) == [pieces[0]];
    }
  }

  /** Writing a list of clean keys as `"k1,k2,..."` and parsing it gives the list back. */
  lemma ParseJoinRoundTrip(items: seq<string>)
    requires |items| >= 1
    requires forall i :: 0 <= i < |items| ==> items[i] != [] && IsStripped(items[i]) && ',' !in items[i]
    ensures ParseCommaList(JoinWithComma(items)) == items
  {
    SplitJoin(items);
    KeepIdentity(items);
  }

  /** The `if not self.api_keys` guard is redundant: an empty setting parses
      to the empty list anyway. */
  lemma ApiKeysGuardRedundant(settings: Settings)
    ensures settings.ApiKeysList() == ParseCommaList(settings.apiKeys)
  {
    if settings.apiKeys == [] {
      assert SplitOnComma([]) == [[]];
      EmptyPieceDropped();
    }
  }

  lemma EmptyPieceDropped()
    ensures KeepStrippedNonEmpty([[]]) == []
  {
    assert TrimLeft([]) == [];
    assert Strip([]) == [];
    assert KeptPiece([]) == [];
    var pieces: seq<string> := [[]];
    assert pieces[1..] == [];
  }

  /** Apart from the `"*"` and empty cases the two properties parse alike. */
  lemma CorsParsesLikeApiKeys(settings: Settings)
    requires settings.corsOrigins != [] && settings.corsOrigins != "*"
    requires settings.corsOrigins == settings.apiKeys
    ensures settings.CorsOriginsList() == settings.ApiKeysList()
  {
  }

  /** A whitespace-only `cors_origins` is not the empty string, so it yields
      no origin at all rather than `["*"]`. */
  lemma {:induction false} BlankCorsYieldsNoOrigins(settings: Settings)
    requires settings.corsOrigins != []
    requires forall k :: 0 <= k < |settings.corsOrigins| ==> IsSpace(settings.corsOrigins[k])
    ensures settings.CorsOriginsList() == []
  {
    assert IsSpace(settings.corsOrigins[0]) && !IsSpace('*');
    BlankPiecesDropped(settings.corsOrigins);
  }

  lemma {:induction false} BlankPiecesDropped(s: string)
    requires forall k :: 0 <= k < |s| ==> IsSpace(s[k])
    ensures ParseCommaList(s) == []
  {
    var pieces := SplitOnComma(s);
    forall i | 0 <= i < |pieces| ensures Strip(pieces[i]) == [] {
      SplitPiecesFromString(s, i);
      forall k | 0 <= k < |pieces[i]| ensures IsSpace(pieces[i][k]) {
        assert pieces[i][k] in pieces[i];
      }
      StripEmptyIffAllSpace(pieces[i]);
    }
    AllBlankKeptNone(pieces);
  }

  /** Every character of a piece of `s.split(",")` is a character of `s`. */
  lemma {:induction false} SplitPiecesFromString(s: string, i: nat)
    requires i < |SplitOnComma(s)|
    ensures forall c :: c in SplitOnComma(s)[i] ==> c in s
  {
    if s != [] {
      var rest := SplitOnComma(s[1..]);
      if s[0] == ',' {
        if i > 0 { SplitPiecesFromString(s[1..], i - 1); }
      } else if i == 0 {
        SplitPiecesFromString(s[1..], 0);
      } else {
        SplitPiecesFromString(s[1..], i);
      }
    }
  }

  lemma {:induction false} AllBlankKeptNone(pieces: seq<string>)
    requires forall i :: 0 <= i < |pieces| ==> Strip(pieces[i]) == []
    ensures KeepStrippedNonEmpty(pieces) == []
  {
    if pieces != [] {
      AllBlankKeptNone(pieces[1..]);
    }
  }
}
