/** The optional value used throughout, where the source uses None or a missing key. */
module Wrappers {
  datatype Option<+T> = None | Some(value: T)
}

/**
  Conversation selectors. A token is a kind and the text under its digest: the digest is taken to be
  injective, so the text itself stands for it.
 */
module Tokens {
  datatype Kind = Chat | Session | User | Other

  datatype Token = Token(kind: Kind, text: string)

  const KINDS: seq<Kind> := [Chat, Session, User]

  function OfKind(tokens: set<Token>, kind: Kind): set<Token> {
    set t | t in tokens && t.kind == kind
  }

  /** The selectors of one conversation; an empty text contributes nothing. */
  function ScopeTokens(platform: string, chat: string, user: string, session: string): (tokens: set<Token>)
    ensures forall s, t :: s in tokens && t in tokens && s.kind == t.kind ==> s == t
    ensures (exists t :: t in tokens && t.kind == Session) <==> session != ""
    ensures (exists t :: t in tokens && t.kind == Chat) <==> chat != ""
    ensures (exists t :: t in tokens && t.kind == User) <==> user != ""
    ensures forall t :: t in tokens ==>
      && (t.kind == Chat ==> t.text == platform + "|" + chat) && (t.kind == User ==> t.text == platform + "|" + user)
      && (t.kind == Session ==> t.text == "agent-session|" + session) && t.kind != Other
  {
    (if chat == "" then {} else {Token(Chat, platform + "|" + chat)}) +
    (if user == "" then {} else {Token(User, platform + "|" + user)}) +
    (if session == "" then {} else {SessionToken(session)})
  }

  /** What a caller knows of its conversation, and the tokens it names it by. */
  datatype Selectors = Selectors(platform: string, chat: string, user: string, session: string)

  function TokensOf(s: Selectors): set<Token> {
    ScopeTokens(s.platform, s.chat, s.user, s.session)
  }

  function SessionToken(session: string): Token {
    Token(Session, "agent-session|" + session)
  }

  lemma SessionTokenInjective(s: string, t: string)
    requires SessionToken(s) == SessionToken(t)
    ensures s == t
  {
    var prefix := "agent-session|";
    assert (prefix + s)[|prefix|..] == s;
    assert (prefix + t)[|prefix|..] == t;
  }

  /** The first kind that both sides carry decides; without such a kind any common token does. */
  predicate TokensMatch(record: set<Token>, candidates: set<Token>) {
    MatchFrom(KINDS, record, candidates)
  }

  predicate MatchFrom(kinds: seq<Kind>, record: set<Token>, candidates: set<Token>) {
    if kinds == [] then
      record * candidates != {}
    else
      var ours := OfKind(record, kinds[0]);
      var theirs := OfKind(candidates, kinds[0]);
      if ours != {} && theirs != {} then ours * theirs != {}
      else MatchFrom(kinds[1..], record, candidates)
  }

  predicate AllSessions(tokens: set<Token>) {
    tokens != {} && forall t :: t in tokens ==> t.kind == Session
  }

  /** Tokens that match have a token in common, whatever kind decided. */
  lemma {:induction false} MatchMeansCommon(kinds: seq<Kind>, record: set<Token>, candidates: set<Token>)
    requires MatchFrom(kinds, record, candidates)
    ensures record * candidates != {}
  {
    if kinds != [] {
      var ours, theirs := OfKind(record, kinds[0]), OfKind(candidates, kinds[0]);
      if ours != {} && theirs != {} {
        var t :| t in ours * theirs;
        assert t in record * candidates;
      } else {
        MatchMeansCommon(kinds[1..], record, candidates);
      }
    }
  }

  /** A binding to sessions only matches exactly the lists that name one of its sessions. */
  lemma SessionScopeMatch(record: set<Token>, candidates: set<Token>)
    requires AllSessions(record)
    ensures TokensMatch(record, candidates) <==> record * candidates != {}
  {
    if TokensMatch(record, candidates) {
      MatchMeansCommon(KINDS, record, candidates);
    } else if t :| t in record * candidates {
      assert t in OfKind(record, Session) * OfKind(candidates, Session);
      assert OfKind(record, Chat) == {};
      assert KINDS[1..][0] == Session;
      assert MatchFrom(KINDS[1..], record, candidates);
      assert false;
    }
  }

  /** Widening a matching binding by the very list it matched keeps the match. */
  lemma {:induction false} WidenedStillMatches(kinds: seq<Kind>, record: set<Token>, candidates: set<Token>)
    requires record * candidates != {}
    ensures MatchFrom(kinds, record + candidates, candidates)
  {
    if kinds == [] {
      assert record * candidates <= (record + candidates) * candidates;
    } else {
      var ours, theirs := OfKind(record + candidates, kinds[0]), OfKind(candidates, kinds[0]);
      if t :| t in theirs {
        assert t in ours * theirs;
      } else {
        WidenedStillMatches(kinds[1..], record, candidates);
      }
    }
  }
}
