/** Network peers (`Peer`, shared/src/lib.rs): a `"host:port"` string. */
module Peers {
  import opened Wrappers

  /** The error of `Peer::ip` (an `anyhow` error) and of `Peer`'s `Display`
      (`std::fmt::Error`). */
  datatype PeerError = NoIp | FormatError

  /** `str::split_once(sep)`: the parts before and after the first `sep`. */
  function SplitOnce(s: string, sep: char): (r: Option<(string, string)>)
    ensures r.None? <==> sep !in s
    ensures r.Some? ==> s == r.value.0 + [sep] + r.value.1 && sep !in r.value.0
  {
    if s == [] then None
    else if s[0] == sep then Some(([], s[1..]))
    else match SplitOnce(s[1..], sep)
      case None => None
      case Some((before, after)) => Some(([s[0]] + before, after))
  }

  /** `Peer::ip`: the part of the peer string before its first `':'`. */
  function PeerIp(peer: string): (r: Result<string, PeerError>)
    ensures r.Failure? <==> ':' !in peer
    ensures r.Failure? ==> r.error == NoIp
    ensures r.Success? ==> ':' !in r.value && |r.value| < |peer|
    ensures r.Success? ==> peer[..|r.value|] == r.value && peer[|r.value|] == ':'
  {
    match SplitOnce(peer, ':')
    case Some((ip, _)) => Success(ip)
    case None => Failure(NoIp)
  }

  /** `Display for Peer`: writes `ip:port`, failing when there is no `':'`. */
  function PeerDisplay(peer: string): (r: Result<string, PeerError>)
    ensures r.Failure? <==> ':' !in peer
    ensures r.Failure? ==> r.error == FormatError
    ensures r.Success? ==> r.value == peer
  {
    match SplitOnce(peer, ':')
    case Some((ip, port)) => Success(ip + ":" + port)
    case None => Failure(FormatError)
  }

  /** The ip is fixed by the first `':'` alone: whatever follows it, even
      further `':'`s, belongs to the port. */
  lemma PeerIpIsBeforeFirstColon(host: string, rest: string)
    requires ':' !in host
    ensures PeerIp(host + ":" + rest) == Success(host)
  {
    SplitOnceFirst(host, rest, ':');
  }

  /** `split_once` splits at the first separator. */
  lemma {:induction false} SplitOnceFirst(before: string, after: string, sep: char)
    requires sep !in before
    ensures SplitOnce(before + [sep] + after, sep) == Some((before, after))
  {
    if before == [] {
      assert before + [sep] + after == [sep] + after;
    } else {
      var s := before + [sep] + after;
      assert s[0] == before[0] && s[0] != sep;
      assert s[1..] == before[1..] + [sep] + after;
      SplitOnceFirst(before[1..], after, sep);
      assert [before[0]] + before[1..] == before;
    }
  }
}
