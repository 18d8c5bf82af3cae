/** The profile page of src/pages/ProfilePage.jsx: favourites lists (with the
    legacy comma/newline text format), the partner card, and the invite form. */
module Profile {
  import opened Base
  import opened Text
  import Seqs

  /** A stored `favorites` value: missing, the legacy text format, or a list. */
  datatype FavoritesValue = Missing | Legacy(text: string) | Items(list: seq<string>)

  /** A user document as the couple endpoint returns it. */
  datatype Person = Person(id: string, firstName: string, lastName: Option<string>, email: string,
                           address: Option<string>, favorites: FavoritesValue)

  /** A couple document; `user2` is absent until the invitee has an account. */
  datatype Couple = Couple(id: string, status: string, user1: Person, user2: Option<Person>,
                           inviteFirstName: string, inviteLastName: Option<string>, inviteEmail: string)

  /** What the partner card shows. */
  datatype PartnerInfo =
    | Pending(name: string, email: string)
    | Member(name: string, email: string, address: Option<string>, favorites: FavoritesValue)
  {
    predicate IsPending() { Pending? }
  }

  /** The invite form's fields. */
  datatype InviteData = InviteData(email: string, firstName: string, lastName: string)

  /** Every entry is non-empty and has no white space at either end. */
  predicate CleanList(xs: seq<string>) {
    forall i :: 0 <= i < |xs| ==> xs[i] != "" && IsTrimmed(xs[i])
  }

  /** Each piece with the white space at both ends removed, in order
      (`pieces.map(s => s.trim())`). */
  function TrimAll(xs: seq<string>): (r: seq<string>)
    ensures |r| == |xs| && forall i :: 0 <= i < |xs| ==> r[i] == Trim(xs[i])
    ensures forall x :: x in r ==> IsTrimmed(x)
  {
    seq(|xs|, i requires 0 <= i < |xs| => Trim(xs[i]))
  }

  /** `filter(Boolean)` on strings: only the empty string is dropped. */
  predicate NonEmpty(x: string) {
    x != ""
  }

  /** The entries of a legacy favourites text: the pieces between newlines and commas,
      trimmed, with the blank ones dropped (`favs.split(/[\n,]/).map(s => s.trim()).filter(Boolean)`). */
  function ParseLegacy(text: string): (r: seq<string>)
    ensures CleanList(r)
  {
    Seqs.Filter(TrimAll(Split(text)), NonEmpty)
  }

  /** The legacy format read back: for any text written as separator-free pieces
      between newlines and commas, the entries are those pieces trimmed, in order,
      with the blank ones dropped. By `SplitCovers` every text is written that way. */
  lemma ParseLegacyJoined(xs: seq<string>, seps: seq<char>)
    requires |xs| == |seps| + 1 && AllSeps(seps)
    requires forall k :: 0 <= k < |xs| ==> NoSep(xs[k])
    ensures ParseLegacy(JoinSep(xs, seps)) == Seqs.Filter(TrimAll(xs), NonEmpty)
  {
    SplitJoin(xs, seps);
  }

  /** Writing a clean, separator-free list with any newlines and commas between the
      entries and parsing it back gives the list. */
  lemma LegacyRoundTrip(xs: seq<string>, seps: seq<char>)
    requires |xs| == |seps| + 1 && AllSeps(seps) && CleanList(xs)
    requires forall k :: 0 <= k < |xs| ==> NoSep(xs[k])
    ensures ParseLegacy(JoinSep(xs, seps)) == xs
  {
    ParseLegacyJoined(xs, seps);
    TrimAllKeepsClean(xs);
    Seqs.FilterAll(xs, NonEmpty);
  }

  /** Trimming the entries of a clean list changes nothing. */
  lemma TrimAllKeepsClean(xs: seq<string>)
    requires CleanList(xs)
    ensures TrimAll(xs) == xs
  {
    forall i | 0 <= i < |xs|
      ensures TrimAll(xs)[i] == xs[i]
    {
      TrimFixesTrimmed(xs[i]);
    }
  }

  /** `let favs = value || []; if (typeof favs === 'string') favs = <parsed>`. An empty
      legacy text is falsy and becomes `[]`, which is also what parsing it gives. */
  function LoadFavorites(v: FavoritesValue): (r: seq<string>)
    ensures v.Missing? ==> r == []
    ensures v.Items? ==> r == v.list
    ensures v.Legacy? ==> r == ParseLegacy(v.text) && CleanList(r)
  {
    match v
    case Missing => []
    case Legacy(text) =>
      if text == "" then
        assert Split(text) == [""] && TrimAll([""]) == [""];
        []
      else ParseLegacy(text)
    case Items(list) => list
  }

  /** The add-favourite updater: blank input changes nothing; otherwise the trimmed
      text goes to the end of the list and the input is cleared. */
  function AddFavorite(favs: seq<string>, input: string): (r: (seq<string>, string))
    ensures Trim(input) == "" ==> r == (favs, input)
    ensures Trim(input) != "" ==> |r.0| == |favs| + 1 && r.0[..|favs|] == favs && r.0[|favs|] == Trim(input) && r.1 == ""
  {
    var t := Trim(input);
    if t == "" then (favs, input) else (favs + [t], "")
  }

  /** `favorites.filter((_, i) => i !== index)`. */
  function RemoveFavorite(favs: seq<string>, index: int): (r: seq<string>)
    ensures 0 <= index < |favs| ==> r == favs[..index] + favs[index + 1..]
    ensures !(0 <= index < |favs|) ==> r == favs
  {
    Seqs.RemoveAt(favs, index)
  }

  /** Adding keeps a clean list clean, and the added entry is the trimmed input. */
  lemma AddKeepsClean(favs: seq<string>, input: string)
    requires CleanList(favs)
    ensures CleanList(AddFavorite(favs, input).0)
    ensures Trim(input) != "" ==> AddFavorite(favs, input).0[|favs|] == Trim(input)
  {
    var t := Trim(input);
    if t != "" {
      AppendKeepsClean(favs, t);
    }
  }

  /** A non-empty trimmed entry appended to a clean list keeps it clean. */
  lemma AppendKeepsClean(favs: seq<string>, t: string)
    requires CleanList(favs) && t != "" && IsTrimmed(t)
    ensures CleanList(favs + [t])
  {
    var r := favs + [t];
    forall i | 0 <= i < |r| ensures r[i] != "" && IsTrimmed(r[i]) {
      if i < |favs| {
        assert r[i] == favs[i];
      }
    }
  }

  /** Removing keeps a clean list clean. */
  lemma RemoveKeepsClean(favs: seq<string>, index: int)
    requires CleanList(favs)
    ensures CleanList(RemoveFavorite(favs, index))
  {
    var r := RemoveFavorite(favs, index);
    if 0 <= index < |favs| {
      forall i | 0 <= i < |r| ensures r[i] != "" && IsTrimmed(r[i]) {
        assert r[i] == if i < index then favs[i] else favs[i + 1];
      }
    }
  }

  /** Removing the last entry of a list that extends `favs` by one gives `favs`. */
  lemma RemoveLastEntry(favs: seq<string>, added: seq<string>)
    requires |added| == |favs| + 1 && added[..|favs|] == favs
    ensures RemoveFavorite(added, |favs|) == favs
  {
    assert added[|favs| + 1..] == [];
  }

  /** Removing the entry just added gives the list back. */
  lemma RemoveUndoesAdd(favs: seq<string>, input: string)
    requires Trim(input) != ""
    ensures RemoveFavorite(AddFavorite(favs, input).0, |favs|) == favs
  {
    RemoveLastEntry(favs, AddFavorite(favs, input).0);
  }

  /** Joining a non-blank trimmed first name with a last name by one space and trimming:
      both names with the space when the last name is non-empty and trimmed, and the
      first name alone when the last name is empty. */
  lemma TrimJoined(first: string, last: string)
    ensures first != "" && IsTrimmed(first) && last != "" && IsTrimmed(last) ==>
              Trim(first + " " + last) == first + " " + last
    ensures first != "" && IsTrimmed(first) && last == "" ==> Trim(first + " " + last) == first
  {
    if first != "" && IsTrimmed(first) && last != "" && IsTrimmed(last) {
      TrimFixesTrimmed(first + " " + last);
    }
    if first != "" && IsTrimmed(first) && last == "" {
      assert first + " " + last == "" + first + " ";
      TrimPadded("", first, " ");
    }
  }

  /** The displayed name, `` `${first} ${last || ''}`.trim() ``: the first name, a space
      and the last name, or the first name alone without a last name. */
  function FullName(first: string, last: Option<string>): (r: string)
    ensures IsTrimmed(r)
    ensures first != "" && IsTrimmed(first) && last.Some? && last.value != "" && IsTrimmed(last.value) ==>
              r == first + " " + last.value
    ensures first != "" && IsTrimmed(first) && (last.None? || last.value == "") ==> r == first
  {
    TrimJoined(first, last.GetOr(""));
    Trim(first + " " + last.GetOr(""))
  }

  /** `user1._id === user._id ? user2 : user1`: the member of the couple other than `me`. */
  function OtherMember(c: Couple, me: string): (r: Option<Person>)
    ensures c.user1.id != me ==> r == Some(c.user1)
    ensures c.user2.Some? && c.user2.value.id == me && c.user1.id != me ==> r.Some? && r.value.id != me
    ensures c.user1.id == me ==> r == c.user2
  {
    if c.user1.id == me then c.user2 else Some(c.user1)
  }

  /** When `me` is one of two distinct members, the other member is chosen, never `me`. */
  lemma OtherMemberIsPartner(c: Couple, me: string)
    requires c.user2.Some? && c.user1.id != c.user2.value.id
    requires c.user1.id == me || c.user2.value.id == me
    ensures OtherMember(c, me).Some?
    ensures OtherMember(c, me).value.id != me
    ensures OtherMember(c, me).value == c.user1 || OtherMember(c, me).value == c.user2.value
  {
  }

  /** `getPartnerInfo()`. */
  function GetPartnerInfo(couple: Option<Couple>, me: string): (r: Option<PartnerInfo>)
    ensures couple.None? ==> r.None?
    ensures couple.Some? && couple.value.status == "pending" ==>
              r == Some(Pending(FullName(couple.value.inviteFirstName, couple.value.inviteLastName), couple.value.inviteEmail))
    ensures couple.Some? && couple.value.status != "pending" ==>
              (r.None? <==> OtherMember(couple.value, me).None?)
    ensures r.Some? && !r.value.IsPending() ==>
              exists p :: OtherMember(couple.value, me) == Some(p) &&
                r.value == Member(FullName(p.firstName, p.lastName), p.email, p.address, p.favorites)
  {
    if couple.None? then None
    else
      var c := couple.value;
      if c.status == "pending" then Some(Pending(FullName(c.inviteFirstName, c.inviteLastName), c.inviteEmail))
      else
        match OtherMember(c, me)
        case None => None
        case Some(p) => Some(Member(FullName(p.firstName, p.lastName), p.email, p.address, p.favorites))
  }

  /** The invite form is submitted only with both an email and a first name. */
  predicate CanInvite(d: InviteData) {
    d.email != "" && d.firstName != ""
  }

  /** The settled outcome of `invitePartner`: the new couple and the server's message. */
  datatype InviteReply = InviteReply(couple: Option<Couple>, message: string)

  /** The page's state. */
  class ProfilePage {
    const me: string
    var couple: Option<Couple>
    var address: string
    var favorites: seq<string>
    var newFavorite: string
    var partnerFavorites: seq<string>
    var newPartnerFavorite: string
    var inviteData: InviteData
    var showInviteForm: bool
    var submitting: bool
    var error: string
    var success: string
    /** Invitations sent to the couple service. */
    var invites: seq<InviteData>

    constructor (me: string)
      ensures this.me == me && couple == None && favorites == [] && partnerFavorites == []
      ensures newFavorite == "" && newPartnerFavorite == "" && inviteData == InviteData("", "", "")
      ensures !showInviteForm && !submitting && error == "" && success == "" && invites == []
    {
      this.me := me;
      couple := None;
      address := "";
      favorites := [];
      newFavorite := "";
      partnerFavorites := [];
      newPartnerFavorite := "";
      inviteData := InviteData("", "", "");
      showInviteForm := false;
      submitting := false;
      error := "";
      success := "";
      invites := [];
    }

    /** The effect run when the user is known: address and favourites from the user document. */
    method LoadUser(user: Person)
      modifies this`favorites, this`address
      ensures favorites == LoadFavorites(user.favorites) && address == user.address.GetOr("")
      ensures couple == old(couple) && partnerFavorites == old(partnerFavorites) && invites == old(invites)
    {
      favorites := LoadFavorites(user.favorites);
      address := user.address.GetOr("");
    }

    /** The effect run when the couple changes: the partner's favourites, if there is a partner. */
    method LoadPartner()
      modifies this`partnerFavorites
      ensures var info := GetPartnerInfo(couple, me);
              partnerFavorites == if info.None? then old(partnerFavorites)
                                  else if info.value.Member? then LoadFavorites(info.value.favorites)
                                  else []
      ensures couple == old(couple) && favorites == old(favorites) && invites == old(invites)
    {
      if couple.Some? {
        var p := GetPartnerInfo(couple, me);
        if p.Some? {
          partnerFavorites := if p.value.Member? then LoadFavorites(p.value.favorites) else [];
        }
      }
    }

    /** `handleAddFavorite()`. */
    method HandleAddFavorite()
      modifies this`favorites, this`newFavorite
      ensures (favorites, newFavorite) == AddFavorite(old(favorites), old(newFavorite))
      ensures partnerFavorites == old(partnerFavorites) && newPartnerFavorite == old(newPartnerFavorite)
      ensures couple == old(couple) && invites == old(invites)
    {
      var r := AddFavorite(favorites, newFavorite);
      favorites, newFavorite := r.0, r.1;
    }

    /** `handleRemoveFavorite(index)`. */
    method HandleRemoveFavorite(index: int)
      modifies this`favorites
      ensures favorites == RemoveFavorite(old(favorites), index)
      ensures partnerFavorites == old(partnerFavorites) && newFavorite == old(newFavorite)
      ensures couple == old(couple) && invites == old(invites)
    {
      favorites := RemoveFavorite(favorites, index);
    }

    /** `handleAddPartnerFavorite()`: the same rule on the partner's list. */
    method HandleAddPartnerFavorite()
      modifies this`partnerFavorites, this`newPartnerFavorite
      ensures (partnerFavorites, newPartnerFavorite) == AddFavorite(old(partnerFavorites), old(newPartnerFavorite))
      ensures favorites == old(favorites) && newFavorite == old(newFavorite)
      ensures couple == old(couple) && invites == old(invites)
    {
      var r := AddFavorite(partnerFavorites, newPartnerFavorite);
      partnerFavorites, newPartnerFavorite := r.0, r.1;
    }

    /** `handleRemovePartnerFavorite(index)`. */
    method HandleRemovePartnerFavorite(index: int)
      modifies this`partnerFavorites
      ensures partnerFavorites == RemoveFavorite(old(partnerFavorites), index)
      ensures favorites == old(favorites) && newPartnerFavorite == old(newPartnerFavorite)
      ensures couple == old(couple) && invites == old(invites)
    {
      partnerFavorites := RemoveFavorite(partnerFavorites, index);
    }

    /** `handleInvite(e)`: without an email and a first name nothing happens; otherwise the
        invitation is sent and the outcome decides between the new couple with the success
        message and a reset form, and the error message. */
    method HandleInvite(outcome: Result<InviteReply>)
      modifies this`submitting, this`error, this`success, this`invites
      modifies this`couple, this`showInviteForm, this`inviteData
      ensures !CanInvite(old(inviteData)) ==>
                couple == old(couple) && inviteData == old(inviteData) && invites == old(invites)
                && error == old(error) && success == old(success) && submitting == old(submitting)
                && showInviteForm == old(showInviteForm)
      ensures CanInvite(old(inviteData)) ==> invites == old(invites) + [old(inviteData)] && !submitting
      ensures CanInvite(old(inviteData)) && outcome.Ok? ==>
                && couple == outcome.value.couple && success == outcome.value.message && error == ""
                && !showInviteForm && inviteData == InviteData("", "", "")
      ensures CanInvite(old(inviteData)) && outcome.Err? ==>
                && couple == old(couple) && success == "" && error == outcome.msg
                && showInviteForm == old(showInviteForm) && inviteData == old(inviteData)
      ensures favorites == old(favorites) && partnerFavorites == old(partnerFavorites)
    {
      if !(inviteData.email != "" && inviteData.firstName != "") {
        return;
      }
      submitting := true;
      error := "";
      success := "";
      invites := invites + [inviteData];
      match outcome {
        case Ok(reply) =>
          couple := reply.couple;
          success := reply.message;
          showInviteForm := false;
          inviteData := InviteData("", "", "");
        case Err(msg) =>
          error := msg;
      }
      submitting := false;
    }
  }
}
