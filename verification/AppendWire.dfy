/** The append transaction: its data layout, the signature offsets into it, and what an accepted one proves. */
module AppendWire {
  import opened Bytes
  import opened Results
  import opened StateOps
  import opened Accounts
  import opened Invariant
  import opened Coins
  import opened Precompile
  import I = Instructions

  const BASE := 76
  const LINK := 168

  // ---- what the client builds

  /** A link as the caller of the client hands it over: two buffers of any size. */
  datatype RawLink = RawLink(state: Bytes, sig: Bytes)

  function LinkBytes(links: seq<RawLink>): Bytes {
    if links == [] then [] else
    LinkBytes(links[..|links| - 1]) + (links[|links| - 1].state + links[|links| - 1].sig)
  }

  /** Discriminator, serial, owner of the stored head, number of links, the links, hash of the last state. */
  function RawData(disc: Bytes, serial: Bytes, headOwner: Bytes, links: seq<RawLink>, lastHash: Bytes): Bytes {
    disc + serial + headOwner + LE(4, |links|) + LinkBytes(links) + lastHash
  }

  function RawLinks(links: seq<Link>): (raw: seq<RawLink>)
    ensures |raw| == |links|
  {
    seq(|links|, i requires 0 <= i < |links| => RawLink(links[i].state, links[i].sig))
  }

  /** The same for buffers of the proper sizes. */
  function AppendData(disc: Bytes, serial: Bytes32, headOwner: Bytes32, links: seq<Link>, lastHash: Bytes32): Bytes {
    RawData(disc, serial, headOwner, RawLinks(links), lastHash)
  }

  /** The record of link `i`: all three slices lie in instruction 1, the append instruction. */
  function RecordOf(n: nat, i: nat): OffsetRecord
    requires i < n
  {
    OffsetRecord(
      BASE + i * LINK + 104, 1,
      if i == 0 then 40 else BASE + (i - 1) * LINK + 40, 1,
      if i < n - 1 then BASE + (i + 1) * LINK + 72 else BASE + n * LINK, 32, 1)
  }

  function Records(n: nat): (records: seq<OffsetRecord>)
    ensures |records| == n && forall i :: 0 <= i < n ==> records[i] == RecordOf(n, i)
  {
    seq(n, i requires 0 <= i < n => RecordOf(n, i))
  }

  /** appendLinksIxPair: the data of the precompile instruction and of the append instruction. The buffers' sizes go
      unchecked, except that no account address can be derived from a serial of more than 32 bytes. */
  method AppendLinksIxPair(disc: Bytes, serial: Bytes, headOwner: Bytes, links: seq<RawLink>, lastHash: Bytes)
    returns (r: Result<(Bytes, Bytes)>)
    ensures r.Ok? <==> 1 <= |links| <= MAX_RECORDS && |serial| <= 32
    ensures r.Err? ==> r.error == if links == [] then NoLinks else if |serial| > 32 then WrongSize else TooManyRecords
    ensures r.Ok? ==>
      Encodes(r.value.0, Records(|links|)) && r.value.1 == RawData(disc, serial, headOwner, links, lastHash)
  {
    if |links| == 0 { return Err(NoLinks); }
    if |serial| > 32 { return Err(WrongSize); }
    WritableRecords(|links|);
    var ed :- Ed25519VerifyIx(Records(|links|));
    return Ok((ed[..], RawData(disc, serial, headOwner, links, lastHash)));
  }

  /** With at most 12 links every offset fits the record's 16 bits. */
  lemma WritableRecords(n: nat)
    ensures AllWritable(Records(n)) <==> 1 <= n <= MAX_RECORDS
  {
    forall r | r in Records(n) && n <= MAX_RECORDS ensures Writable(r) {}
  }

  // ---- what the program reads

  datatype AppendArgs = AppendArgs(serial: Bytes32, headOwner: Bytes32, links: seq<Link>, lastHash: Bytes32)

  function LinkAt(data: Bytes, i: nat): Link
    requires BASE + LINK * (i + 1) <= |data|
  {
    var o := BASE + LINK * i;
    Link(data[o..o + 104], data[o + 104..o + 168])
  }

  /** The arguments of append_links after the 8-byte discriminator; bytes beyond them are ignored. */
  function ReadAppend(data: Bytes): Option<AppendArgs> {
    if |data| < BASE then None else
    var n := FromLE(data[72..76]);
    if |data| < BASE + LINK * n + 32 then None else
    Some(AppendArgs(data[8..40], data[40..72], seq(n, i requires 0 <= i < n => LinkAt(data, i)),
                    data[BASE + LINK * n..BASE + LINK * n + 32]))
  }

  lemma {:induction false} LinkBytesSize(links: seq<Link>)
    ensures |LinkBytes(RawLinks(links))| == LINK * |links|
  {
    if links != [] {
      LinkBytesSize(links[..|links| - 1]);
      assert RawLinks(links)[..|links| - 1] == RawLinks(links[..|links| - 1]);
    }
  }

  lemma {:induction false} LinkBytesAt(links: seq<Link>, i: nat)
    requires i < |links|
    ensures |LinkBytes(RawLinks(links))| == LINK * |links|
    ensures LinkBytes(RawLinks(links))[LINK * i..LINK * (i + 1)] == links[i].state + links[i].sig
  {
    var n := |links| - 1;
    assert RawLinks(links)[..n] == RawLinks(links[..n]);
    LinkBytesSize(links[..n]);
    if i < n {
      LinkBytesAt(links[..n], i);
    }
  }

  /** The program reads back exactly what the client put in. */
  lemma AppendRoundTrip(disc: Bytes, serial: Bytes32, headOwner: Bytes32, links: seq<Link>, lastHash: Bytes32)
    requires |disc| == 8 && |links| < 0x1_0000_0000
    ensures ReadAppend(AppendData(disc, serial, headOwner, links, lastHash)) ==
      Some(AppendArgs(serial, headOwner, links, lastHash))
  {
    var data, n := AppendData(disc, serial, headOwner, links, lastHash), |links|;
    HeaderBack(disc, serial, headOwner, links, lastHash);
    hide AppendData;
    forall i | 0 <= i < n ensures LinkAt(data, i) == links[i] {
      LinkBytesAt(links, i);
      var o := BASE + LINK * i;
      assert data[o..o + LINK] == data[BASE..BASE + LINK * n][LINK * i..LINK * (i + 1)];
      assert data[o..o + LINK][..104] == data[o..o + 104] && data[o..o + LINK][104..] == data[o + 104..o + 168];
    }
    assert seq(n, i requires 0 <= i < n => LinkAt(data, i)) == links;
  }

  ghost predicate ProperSizes(serial: Bytes, headOwner: Bytes, links: seq<RawLink>, lastHash: Bytes) {
    && |serial| == 32 && |headOwner| == 32 && |lastHash| == 32
    && forall i :: 0 <= i < |links| ==> |links[i].state| == STATE_SIZE && |links[i].sig| == 64
  }

  /** What the client takes comes back out of its data exactly when all buffers have their proper sizes. */
  lemma ReadsBackIff(disc: Bytes, serial: Bytes, headOwner: Bytes, links: seq<RawLink>, lastHash: Bytes)
    requires |disc| == 8 && |links| <= MAX_RECORDS
    ensures ProperSizes(serial, headOwner, links, lastHash)
       <==> exists a :: ReadAppend(RawData(disc, serial, headOwner, links, lastHash)) == Some(a)
                        && a.serial == serial && a.headOwner == headOwner && RawLinks(a.links) == links
                        && a.lastHash == lastHash
  {
    hide ReadAppend, LinkBytes;
    if ProperSizes(serial, headOwner, links, lastHash) {
      var typed := seq(|links|, i requires 0 <= i < |links| && |links[i].state| == STATE_SIZE && |links[i].sig| == 64 =>
                                  Link(links[i].state, links[i].sig));
      assert RawLinks(typed) == links;
      AppendRoundTrip(disc, serial, headOwner, typed, lastHash);
    }
    forall a: AppendArgs, i | RawLinks(a.links) == links && 0 <= i < |links|
      ensures |links[i].state| == STATE_SIZE && |links[i].sig| == 64
    {
      assert links[i] == RawLinks(a.links)[i];
    }
  }

  lemma HeaderBack(disc: Bytes, serial: Bytes32, headOwner: Bytes32, links: seq<Link>, lastHash: Bytes32)
    requires |disc| == 8 && |links| < 0x1_0000_0000
    ensures var data, n := AppendData(disc, serial, headOwner, links, lastHash), |links|;
            && |data| == BASE + LINK * n + 32 && data[8..40] == serial && data[40..72] == headOwner
            && FromLE(data[72..76]) == n && data[BASE..BASE + LINK * n] == LinkBytes(RawLinks(links))
            && data[BASE + LINK * n..BASE + LINK * n + 32] == lastHash
  {
    Widths();
    FromLEOfLE(4, |links|);
    LinkBytesSize(links);
    hide LinkBytes, LE, FromLE, RawLinks;
    var start, owned := disc + serial, disc + serial + headOwner;
    var counted, body := owned + LE(4, |links|), owned + LE(4, |links|) + LinkBytes(RawLinks(links));
    Appended(disc, serial);
    Appended(start, headOwner);
    Appended(owned, LE(4, |links|));
    Appended(counted, LinkBytes(RawLinks(links)));
    Appended(body, lastHash);
  }

  // ---- signature coverage

  /** The state whose owner has to sign link `i`. */
  function Before(last: State, links: seq<Link>, i: nat): State
    requires i < |links|
  {
    if i == 0 then last else links[i - 1].state
  }

  /** Link `i` is signed over its state's hash by the owner of the state before it. */
  predicate LinkSigned(hash: Bytes -> Bytes32, verify: Verifier, last: State, links: seq<Link>, i: nat)
    requires i < |links|
  {
    SigOk(verify, links[i].sig, hash(links[i].state), ParseOwner(Before(last, links, i)))
  }

  /** Whatever the data, the three slices of record `i` are link i's signature, the previous owner, and the next hash
      field. */
  lemma RecordSlices(ixs: seq<Bytes>, data: Bytes, i: nat)
    requires |ixs| == 2 && ixs[1] == data && ReadAppend(data).Some? && i < |ReadAppend(data).value.links|
    ensures var a := ReadAppend(data).value;
            var n := |a.links|;
            var r := RecordOf(n, i);
            && Slice(ixs, r.sigIx, r.sigOff, 64) == Some(a.links[i].sig)
            && Slice(ixs, r.pubIx, r.pubOff, 32) ==
               Some(if i == 0 then a.headOwner else ParseOwner(a.links[i - 1].state))
            && Slice(ixs, r.msgIx, r.msgOff, r.msgSize)
               == Some(if i < n - 1 then ParsePrevHash(a.links[i + 1].state) else a.lastHash)
  {
    var a := ReadAppend(data).value;
    var n := |a.links|;
    assert forall j :: 0 <= j < n ==> a.links[j] == LinkAt(data, j);
    SlicesWithin(data, n, i);
  }

  lemma SlicesWithin(data: Bytes, n: nat, i: nat)
    requires i < n && BASE + LINK * n + 32 <= |data|
    ensures i > 0 ==>
      ParseOwner(LinkAt(data, i - 1).state) == data[BASE + (i - 1) * LINK + 40..BASE + (i - 1) * LINK + 72]
    ensures i < n - 1 ==>
      ParsePrevHash(LinkAt(data, i + 1).state) == data[BASE + (i + 1) * LINK + 72..BASE + (i + 1) * LINK + 104]
  {
    if i > 0 {
      var o := BASE + LINK * (i - 1);
      SliceSlice(data, o, o + 104, 40, 72);
    }
    if i < n - 1 {
      var o := BASE + LINK * (i + 1);
      SliceSlice(data, o, o + 104, 72, 104);
    }
  }

  /** What append_links has checked about the hashes the signatures were made over. */
  lemma AcceptedHashes(env: Env, cfg: Config, reg: Registry, sub: Submission, a: AppendArgs, i: nat)
    requires i < |a.links| && I.AppendLinks(env, cfg, reg, sub, a.serial, a.headOwner, a.links, a.lastHash).Ok?
    ensures sub.states != [] && a.headOwner == ParseOwner(Last(sub.states))
    ensures env.hash(a.links[i].state) == if i < |a.links| - 1 then ParsePrevHash(a.links[i + 1].state) else a.lastHash
  {
    hide I.CheckLinks, SigsOk, ParseOwner, ParseSerial, ParseValue;
    CheckLinksIff(env.hash, cfg.sigScheme, reg, Last(sub.states), a.links);
    var all := [Last(sub.states)] + I.StatesOf(a.links);
    if i < |a.links| - 1 {
      assert LinkOk(env.hash, reg, all[i + 1], all[i + 2]);
    }
  }

  /** When append_links accepts data with as many links as records, the precompile accepts exactly when every link is
      signed. */
  lemma SignatureCoverage(env: Env, verify: Verifier, cfg: Config, reg: Registry, sub: Submission, ed: Bytes,
                          data: Bytes)
    requires ReadAppend(data).Some?
    requires var a := ReadAppend(data).value;
             && 1 <= |a.links| <= MAX_RECORDS && Encodes(ed, Records(|a.links|))
             && I.AppendLinks(env, cfg, reg, sub, a.serial, a.headOwner, a.links, a.lastHash).Ok?
    ensures sub.states != []
    ensures var links := ReadAppend(data).value.links;
            Accepts(verify, [ed, data], ed) <==>
            forall i :: 0 <= i < |links| ==> LinkSigned(env.hash, verify, Last(sub.states), links, i)
  {
    hide I.AppendLinks, ReadAppend, Accepts, Encodes, ParseOwner, ParsePrevHash, Writable;
    var a := ReadAppend(data).value;
    var records := Records(|a.links|);
    AcceptedHashes(env, cfg, reg, sub, a, 0);
    WritableRecords(|a.links|);
    AcceptsIff(verify, [ed, data], ed, records);
    forall i | 0 <= i < |a.links|
      ensures RecordPasses(verify, [ed, data], records[i]) <==>
        LinkSigned(env.hash, verify, Last(sub.states), a.links, i)
    {
      AcceptedHashes(env, cfg, reg, sub, a, i);
      RecordSlices([ed, data], data, i);
    }
  }

  /** The offset that the layout comment gives for the last message lies outside the data: only the code's offset can
      work. */
  lemma DocumentedOffsetMisses(disc: Bytes, serial: Bytes32, headOwner: Bytes32, links: seq<Link>, lastHash: Bytes32)
    requires |disc| == 8 && 1 <= |links| <= MAX_RECORDS
    ensures var data, n := AppendData(disc, serial, headOwner, links, lastHash), |links|;
            && Slice([data, data], 1, BASE + n * LINK + 32, 32) == None
            && Slice([data, data], 1, RecordOf(n, n - 1).msgOff, 32) == Some(lastHash)
  {
    HeaderBack(disc, serial, headOwner, links, lastHash);
    hide AppendData;
  }
}
