/** Jailgun run requests: the browser accounts may be named under three aliases, which are folded
    into the one field `browser.account_ids` before the request is sent on. */
module Jailgun {
  import opened Wrappers
  import opened Json

  datatype Error =
    | RequestNotAnObject
    | NotAnArray(field: string)
    | NotAString(field: string, index: nat)
    | AccountNotAString
    | ConflictingAliases
    | DuplicateAccount(account: string)
    | BrowserNotAnObject

  type Fields = map<string, Value>

  const BROWSER := "browser"
  const ACCOUNT_IDS := "account_ids"
  const ACCOUNT := "account"

  function Encoded(ids: seq<string>): Value {
    Arr(seq(|ids|, i requires 0 <= i < |ids| => Str(ids[i])))
  }

  lemma EncodedIsInjective(a: seq<string>, b: seq<string>)
    requires Encoded(a) == Encoded(b)
    ensures a == b
  {
    assert |a| == |Encoded(a).items| == |b|;
    forall i | 0 <= i < |a|
      ensures a[i] == b[i]
    {
      assert Encoded(a).items[i] == Str(a[i]) && Encoded(b).items[i] == Str(b[i]);
    }
  }

  // ----- Reading the aliases -----

  function StringsFrom(items: seq<Value>, field: string, i: nat): (r: Result<seq<string>, Error>)
    requires i <= |items|
    ensures r.Success? ==> |r.value| == |items| - i && forall k | i <= k < |items| :: items[k] == Str(r.value[k - i])
    ensures r.Success? <==> forall k | i <= k < |items| :: items[k].Str?
    ensures r.Failure? ==> exists k | i <= k < |items| :: !items[k].Str? && r.error == NotAString(field, k)
    decreases |items| - i
  {
    if i == |items| then Success([])
    else if !items[i].Str? then Failure(NotAString(field, i))
    else
      match StringsFrom(items, field, i + 1)
      case Success(rest) => Success([items[i].text] + rest)
      case Failure(e) => Failure(e)
  }

  function AccountIds(v: Value, field: string): Result<seq<string>, Error> {
    if v.Arr? then StringsFrom(v.items, field, 0) else Failure(NotAnArray(field))
  }

  /** A value reads as the list of accounts that it is the encoding of, and no other value reads. */
  lemma ReadsExactlyEncodings(v: Value, field: string, ids: seq<string>)
    ensures AccountIds(v, field) == Success(ids) <==> v == Encoded(ids)
  {
    if AccountIds(v, field) == Success(ids) {
      assert v.items == Encoded(ids).items;
    }
    if v == Encoded(ids) {
      assert forall k | 0 <= k < |v.items| :: v.items[k] == Str(ids[k]);
      var r := AccountIds(v, field);
      assert v.items == Encoded(r.value).items;
      EncodedIsInjective(r.value, ids);
    }
  }

  function Canonical(members: Fields): Option<Value> {
    if BROWSER in members then Get(members[BROWSER], ACCOUNT_IDS) else None
  }

  function Field(members: Fields, key: string): Option<Value> {
    if key in members then Some(members[key]) else None
  }

  /** Reading an optional value with a reader that may refuse it. */
  function Transposed(v: Option<Value>, field: string): Result<Option<seq<string>>, Error> {
    if v.None? then Success(None)
    else
      match AccountIds(v.value, field)
      case Success(ids) => Success(Some(ids))
      case Failure(e) => Failure(e)
  }

  function Single(v: Option<Value>): Result<Option<seq<string>>, Error> {
    if v.None? then Success(None)
    else if v.value.Str? then Success(Some([v.value.text]))
    else Failure(AccountNotAString)
  }

  // ----- What the canonical form means -----

  /** An alias that is absent, or that names `ids`. */
  predicate Names(v: Option<Value>, ids: seq<string>) {
    v.None? || v.value == Encoded(ids)
  }

  predicate NamesOne(v: Option<Value>, ids: seq<string>) {
    v.None? || (|ids| == 1 && v.value == Str(ids[0]))
  }

  predicate Unnamed(members: Fields) {
    Canonical(members).None? && ACCOUNT_IDS !in members && ACCOUNT !in members
  }

  /** Some alias is present, and all that are present name `ids`. */
  predicate Agree(members: Fields, ids: seq<string>) {
    && !Unnamed(members)
    && Names(Canonical(members), ids)
    && Names(Field(members, ACCOUNT_IDS), ids)
    && NamesOne(Field(members, ACCOUNT), ids)
  }

  predicate Distinct(ids: seq<string>) {
    forall i, j | 0 <= i < j < |ids| :: ids[i] != ids[j]
  }

  /** The browser member that a request is taken to have. */
  function Browser(members: Fields): Value {
    if BROWSER in members then members[BROWSER] else Obj(map[])
  }

  /** The request with the accounts in their one place. */
  function Routed(members: Fields, ids: seq<string>): Value
    requires Browser(members).Obj?
  {
    Obj(members[BROWSER := Obj(Browser(members).fields[ACCOUNT_IDS := Encoded(ids)])] - {ACCOUNT_IDS, ACCOUNT})
  }

  /** When a request is accepted with the accounts `ids`. */
  predicate Routable(members: Fields, ids: seq<string>) {
    Agree(members, ids) && Distinct(ids) && Browser(members).Obj?
  }

  /** The whole meaning: a request without aliases is passed on as it is, and one with aliases is
      routed to the accounts that all of them name. */
  ghost predicate Canonicalizes(request: Value, r: Result<Value, Error>) {
    && (r.Success? ==>
          && request.Obj?
          && (if Unnamed(request.fields) then r.value == request
              else exists ids :: Routable(request.fields, ids) && r.value == Routed(request.fields, ids)))
    && (r.Failure? ==> !request.Obj? || !(Unnamed(request.fields) || exists ids :: Routable(request.fields, ids)))
  }

  lemma AgreeIsUnique(members: Fields, a: seq<string>, b: seq<string>)
    requires Agree(members, a) && Agree(members, b)
    ensures a == b
  {
    hide Encoded;
    if Canonical(members).Some? || ACCOUNT_IDS in members {
      EncodedIsInjective(a, b);
    } else {
      assert a == [a[0]] && b == [b[0]];
    }
  }

  /** The meaning leaves no choice: a request has one canonical form. */
  lemma CanonicalFormIsUnique(request: Value, a: Result<Value, Error>, b: Result<Value, Error>)
    requires Canonicalizes(request, a) && Canonicalizes(request, b)
    ensures a.Success? <==> b.Success?
    ensures a.Success? ==> a.value == b.value
  {
    hide Agree, Unnamed, Encoded;
    if a.Success? && b.Success? && !Unnamed(request.fields) {
      var i :| Routable(request.fields, i) && a.value == Routed(request.fields, i);
      var j :| Routable(request.fields, j) && b.value == Routed(request.fields, j);
      AgreeIsUnique(request.fields, i, j);
    }
  }

  lemma RoutedAgrees(members: Fields, ids: seq<string>)
    requires Routable(members, ids)
    ensures Routable(Routed(members, ids).fields, ids)
    ensures Routed(Routed(members, ids).fields, ids) == Routed(members, ids)
  {
    hide Encoded;
    var routed := Routed(members, ids).fields;
    assert BROWSER in routed && routed[BROWSER] == Obj(Browser(members).fields[ACCOUNT_IDS := Encoded(ids)]);
    assert Browser(routed).fields[ACCOUNT_IDS := Encoded(ids)] == Browser(routed).fields;
    assert ACCOUNT_IDS !in routed && ACCOUNT !in routed;
    assert Routed(routed, ids).fields == routed;
  }

  /** Canonicalisation is idempotent. */
  lemma Idempotent(request: Value, first: Result<Value, Error>, second: Result<Value, Error>)
    requires Canonicalizes(request, first) && first.Success?
    requires Canonicalizes(first.value, second)
    ensures second == first
  {
    hide Agree, Encoded, Routed, Unnamed;
    if !Unnamed(request.fields) {
      var ids :| Routable(request.fields, ids) && first.value == Routed(request.fields, ids);
      RoutedAgrees(request.fields, ids);
      RoutedIsAnObject(request.fields, ids);
      RoutableIsNamed(first.value.fields, ids);
      var again :| Routable(first.value.fields, again) && second.value == Routed(first.value.fields, again);
      RoutableIsUnique(first.value.fields, ids, again);
    }
  }

  lemma RoutedIsAnObject(members: Fields, ids: seq<string>)
    requires Routable(members, ids)
    ensures Browser(members).Obj? && Routed(members, ids).Obj?
  {
  }

  lemma RoutableIsNamed(members: Fields, ids: seq<string>)
    requires Routable(members, ids)
    ensures !Unnamed(members)
  {
  }

  lemma RoutableIsUnique(members: Fields, a: seq<string>, b: seq<string>)
    requires Routable(members, a) && Routable(members, b)
    ensures a == b
  {
    AgreeIsUnique(members, a, b);
  }

  /** A request without its aliases, whose browser is spelled out. */
  function Stripped(members: Fields): Fields {
    var browser := Browser(members);
    members[BROWSER := if browser.Obj? then Obj(browser.fields - {ACCOUNT_IDS}) else browser] - {ACCOUNT_IDS, ACCOUNT}
  }

  lemma RoutedFromStripped(members: Fields, ids: seq<string>)
    requires Browser(members).Obj?
    ensures var s := Stripped(members);
            && BROWSER in s && s[BROWSER].Obj?
            && Routed(members, ids) == Obj(s[BROWSER := Obj(s[BROWSER].fields[ACCOUNT_IDS := Encoded(ids)])])
  {
    hide Encoded;
    var s := Stripped(members);
    var browser := Browser(members).fields;
    assert (browser - {ACCOUNT_IDS})[ACCOUNT_IDS := Encoded(ids)] == browser[ACCOUNT_IDS := Encoded(ids)];
    assert Routed(members, ids).fields == s[BROWSER := Obj(s[BROWSER].fields[ACCOUNT_IDS := Encoded(ids)])];
  }

  /** Every choice of agreeing aliases for the same accounts gives the same result: two requests
      that are equal but for their aliases, and name the same accounts, have the same outcome. */
  lemma EveryAgreeingChoiceGivesTheSame(
      a: Value, b: Value, ids: seq<string>, ra: Result<Value, Error>, rb: Result<Value, Error>)
    requires a.Obj? && b.Obj? && Stripped(a.fields) == Stripped(b.fields)
    requires Agree(a.fields, ids) && Agree(b.fields, ids)
    requires Canonicalizes(a, ra) && Canonicalizes(b, rb)
    ensures ra.Success? <==> rb.Success?
    ensures ra.Success? ==> ra.value == rb.value
  {
    OutcomeOfAgreeing(a, ids, ra);
    OutcomeOfAgreeing(b, ids, rb);
    StrippedBrowser(a.fields);
    StrippedBrowser(b.fields);
    if ra.Success? {
      RoutedFromStripped(a.fields, ids);
      RoutedFromStripped(b.fields, ids);
    }
  }

  lemma StrippedBrowser(members: Fields)
    ensures BROWSER in Stripped(members) && (Stripped(members)[BROWSER].Obj? <==> Browser(members).Obj?)
  {
  }

  lemma OutcomeOfAgreeing(request: Value, ids: seq<string>, r: Result<Value, Error>)
    requires request.Obj? && Agree(request.fields, ids) && Canonicalizes(request, r)
    ensures r.Success? <==> Distinct(ids) && Browser(request.fields).Obj?
    ensures r.Success? ==> r.value == Routed(request.fields, ids)
  {
    hide Encoded, Names, NamesOne, Canonical;
    assert Distinct(ids) && Browser(request.fields).Obj? ==> Routable(request.fields, ids);
    if r.Success? {
      var found :| Routable(request.fields, found) && r.value == Routed(request.fields, found);
      AgreeIsUnique(request.fields, ids, found);
    }
  }

  /** No alias is left, the browser keeps its other members, and every other key keeps its value. */
  lemma OnlyAliasesChange(request: Value, r: Result<Value, Error>, key: string)
    requires Canonicalizes(request, r) && r.Success?
    ensures r.value.Obj?
    ensures var before, after := request.fields, r.value.fields;
            && ACCOUNT_IDS !in after && ACCOUNT !in after
            && (key !in {BROWSER, ACCOUNT_IDS, ACCOUNT} ==> Field(before, key) == Field(after, key))
            && (key != ACCOUNT_IDS ==> Get(Browser(before), key) == Get(Browser(after), key))
            && (BROWSER in before ==> BROWSER in after)
  {
    hide Encoded, Agree, Distinct;
  }

  /** The three places, as they are spelled in a request. */
  ghost predicate InBrowser(members: Fields) {
    "browser" in members && members["browser"].Obj? && "account_ids" in members["browser"].fields
  }

  function Listed(ids: seq<string>): Value {
    Arr(seq(|ids|, i requires 0 <= i < |ids| => Str(ids[i])))
  }

  /** What it is to name accounts, spelled out: somewhere they are named, and wherever they are named
      they are `ids`. */
  lemma AgreeMeans(members: Fields, ids: seq<string>)
    ensures Unnamed(members) <==> !InBrowser(members) && "account_ids" !in members && "account" !in members
    ensures Agree(members, ids) <==>
            && (InBrowser(members) || "account_ids" in members || "account" in members)
            && (InBrowser(members) ==> members["browser"].fields["account_ids"] == Listed(ids))
            && ("account_ids" in members ==> members["account_ids"] == Listed(ids))
            && ("account" in members ==> |ids| == 1 && members["account"] == Str(ids[0]))
  {
  }

  /** What the canonical request is, spelled out. */
  lemma RoutedMeans(members: Fields, ids: seq<string>)
    requires Routable(members, ids)
    ensures var r := Routed(members, ids);
            && ("browser" in members ==> members["browser"].Obj?)
            && r.Obj? && "account_ids" !in r.fields && "account" !in r.fields
            && "browser" in r.fields && r.fields["browser"].Obj?
            && "account_ids" in r.fields["browser"].fields && r.fields["browser"].fields["account_ids"] == Listed(ids)
            && (forall i, j | 0 <= i < j < |ids| :: ids[i] != ids[j])
            && r.fields.Keys == members.Keys - {"account_ids", "account"} + {"browser"}
            && (forall key | key in r.fields && key != "browser" :: r.fields[key] == members[key])
            && (forall key | key != "account_ids" ::
                  Get(r.fields["browser"], key) == if "browser" in members then Get(members["browser"], key) else None)
  {
    hide Agree;
    assert Encoded(ids) == Listed(ids);
  }

  // ----- The program -----

  method RejectDuplicateAccounts(ids: seq<string>) returns (r: Result<(), Error>)
    ensures r.Success? <==> Distinct(ids)
    ensures r.Failure? ==>
              exists j | 0 <= j < |ids| :: r == Failure(DuplicateAccount(ids[j])) && ids[j] in ids[..j] && Distinct(ids[..j])
  {
    var seen: set<string> := {};
    for i := 0 to |ids|
      invariant forall x :: x in seen <==> x in ids[..i]
      invariant Distinct(ids[..i])
    {
      if ids[i] in seen {
        assert ids[i] in ids[..i];
        return Failure(DuplicateAccount(ids[i]));
      }
      seen := seen + {ids[i]};
      assert ids[..i + 1] == ids[..i] + [ids[i]];
    }
    assert ids[..|ids|] == ids;
    r := Success(());
  }

  /** The accounts the aliases select, when they can be read and agree. */
  method Select(members: Fields) returns (r: Result<Option<seq<string>>, Error>)
    ensures r.Success? && r.value.None? ==> Unnamed(members)
    ensures r.Success? && r.value.Some? ==> Agree(members, r.value.value)
    ensures r.Failure? ==> !Unnamed(members) && (forall ids :: !Agree(members, ids)) && r.error !in {RequestNotAnObject, BrowserNotAnObject} && !r.error.DuplicateAccount?
  {
    hide Encoded, AccountIds;
    var canonical := Transposed(Canonical(members), "browser.account_ids");
    TransposedReads(Canonical(members), "browser.account_ids");
    if canonical.Failure? {
      return canonical;
    }
    var topLevel := Transposed(Field(members, ACCOUNT_IDS), ACCOUNT_IDS);
    TransposedReads(Field(members, ACCOUNT_IDS), ACCOUNT_IDS);
    if topLevel.Failure? {
      return topLevel;
    }
    var account := Single(Field(members, ACCOUNT));
    SingleReads(Field(members, ACCOUNT));
    if account.Failure? {
      return account;
    }
    var selected := canonical.value;
    var aliases := [topLevel.value, account.value];
    for i := 0 to 2
      invariant selected.None? <==> canonical.value.None? && forall k | 0 <= k < i :: aliases[k].None?
      invariant selected.Some? ==> canonical.value in {None, selected} && forall k | 0 <= k < i :: aliases[k] in {None, selected}
    {
      if aliases[i].Some? {
        if selected.Some? {
          if selected != aliases[i] {
            return Failure(ConflictingAliases);
          }
        } else {
          selected := aliases[i];
        }
      }
    }
    assert aliases[0] == topLevel.value && aliases[1] == account.value;
    r := Success(selected);
  }

  /** An alias can be read exactly if it names some accounts, and then it names those it reads as. */
  lemma TransposedReads(v: Option<Value>, field: string)
    ensures var r := Transposed(v, field);
            && (r.Failure? ==> v.Some? && forall ids :: v.value != Encoded(ids))
            && (r.Failure? ==> r.error.NotAnArray? || r.error.NotAString?)
            && (r.Success? ==> (r.value.None? <==> v.None?))
            && (r.Success? && v.Some? ==> forall ids :: v.value == Encoded(ids) <==> r.value == Some(ids))
  {
    hide Encoded;
    if v.Some? {
      forall ids
        ensures AccountIds(v.value, field) == Success(ids) <==> v.value == Encoded(ids)
      {
        ReadsExactlyEncodings(v.value, field, ids);
      }
    }
  }

  lemma SingleReads(v: Option<Value>)
    ensures var r := Single(v);
            && (r.Failure? ==> v.Some? && forall ids :: !NamesOne(v, ids))
            && (r.Success? ==> (r.value.None? <==> v.None?))
            && (r.Success? && v.Some? ==> forall ids :: NamesOne(v, ids) <==> r.value == Some(ids))
  {
    forall ids | v.Some?
      ensures NamesOne(v, ids) <==> Single(v) == Success(Some(ids))
    {
      if |ids| == 1 {
        assert ids == [ids[0]];
      }
    }
  }

  /** What each refusal means. */
  ghost predicate Explains(members: Fields, e: Error) {
    match e
    case RequestNotAnObject => false
    case DuplicateAccount(account) =>
      exists ids, j | 0 <= j < |ids| :: Agree(members, ids) && ids[j] == account && account in ids[..j]
    case BrowserNotAnObject => !Browser(members).Obj? && exists ids :: Agree(members, ids) && Distinct(ids)
    case _ => forall ids :: !Agree(members, ids)
  }

  /** The request is edited in place: the accounts are written to the browser, the aliases removed. */
  method CanonicalizeRunRequest(request: Value) returns (r: Result<Value, Error>)
    ensures Canonicalizes(request, r)
    ensures r.Failure? ==> if request.Obj? then Explains(request.fields, r.error) else r.error == RequestNotAnObject
  {
    hide Agree, Encoded, Unnamed;
    if !request.Obj? {
      return Failure(RequestNotAnObject);
    }
    var members := request.fields;
    var selected := Select(members);
    if selected.Failure? {
      return Failure(selected.error);
    }
    if selected.value.Some? {
      var ids := selected.value.value;
      AgreeIsNamed(members, ids);
      OnlyRoutableIsAgreed(members, ids);
      var distinct := RejectDuplicateAccounts(ids);
      if distinct.Failure? {
        return Failure(distinct.error);
      }
      if BROWSER !in members {
        members := members[BROWSER := Obj(map[])];
      }
      if !members[BROWSER].Obj? {
        return Failure(BrowserNotAnObject);
      }
      members := members[BROWSER := Obj(members[BROWSER].fields[ACCOUNT_IDS := Encoded(ids)])];
    } else {
      UnnamedHasNone(members);
    }
    members := members - {ACCOUNT_IDS};
    members := members - {ACCOUNT};
    r := Success(Obj(members));
    if selected.value.Some? {
      assert Routable(request.fields, selected.value.value);
      assert members == Routed(request.fields, selected.value.value).fields;
    } else {
      assert members == request.fields;
    }
  }

  lemma AgreeIsNamed(members: Fields, ids: seq<string>)
    requires Agree(members, ids)
    ensures !Unnamed(members)
  {
  }

  lemma UnnamedHasNone(members: Fields)
    requires Unnamed(members)
    ensures ACCOUNT_IDS !in members && ACCOUNT !in members
  {
  }

  lemma OnlyRoutableIsAgreed(members: Fields, ids: seq<string>)
    requires Agree(members, ids)
    ensures (exists other :: Routable(members, other)) <==> Distinct(ids) && Browser(members).Obj?
  {
    if other :| Routable(members, other) {
      AgreeIsUnique(members, ids, other);
    }
    if Distinct(ids) && Browser(members).Obj? {
      assert Routable(members, ids);
    }
  }
}
