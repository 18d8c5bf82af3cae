/** The saved links of src/pages/UrlsPage.jsx: create (prepend), delete, and the
    domain label shown for each link. */
module Urls {
  import opened Base
  import opened Text
  import Seqs

  /** A saved link as the server returns it. */
  datatype Link = Link(id: string, url: string, title: string)

  /** The link form's fields. */
  datatype LinkForm = LinkForm(url: string, title: string)

  const EmptyForm := LinkForm("", "")

  function IdOf(l: Link): string { l.id }

  /** `urls.filter(u => u._id !== id)`. */
  function RemoveById(links: seq<Link>, id: string): (r: seq<Link>)
    ensures forall i :: 0 <= i < |r| ==> r[i].id != id
    ensures forall i :: 0 <= i < |links| && links[i].id != id ==> links[i] in r
    ensures Seqs.IsSubseq(r, links)
    ensures forall l :: multiset(r)[l] == if l.id != id then multiset(links)[l] else 0
  {
    Seqs.RemoveKey(links, IdOf, id)
  }

  /** Deleting a link just created (with an id not yet in the list) restores the list. */
  lemma DeleteUndoesCreate(l: Link, links: seq<Link>)
    requires forall i :: 0 <= i < |links| ==> links[i].id != l.id
    ensures RemoveById([l] + links, l.id) == links
  {
    Seqs.RemoveKeyUndoesPrepend(l, links, IdOf);
  }

  const WwwPrefix := "www."

  /** `getDomain(url)`: `hostname` is what `new URL(url).hostname` yields, or None when
      the URL constructor throws; the first "www." anywhere in the host is removed. */
  function GetDomain(url: string, hostname: Option<string>): (r: string)
    ensures hostname.None? ==> r == url
    ensures hostname.Some? ==> |r| == |hostname.value| || |r| + 4 == |hostname.value|
    ensures hostname.Some? && (forall j :: 0 <= j <= |hostname.value| ==> !OccursAt(hostname.value, WwwPrefix, j)) ==>
              r == hostname.value
    ensures forall i :: hostname.Some? && OccursAt(hostname.value, WwwPrefix, i)
                        && (forall j :: 0 <= j < i ==> !OccursAt(hostname.value, WwwPrefix, j)) ==>
              r == hostname.value[..i] + hostname.value[i + 4..]
  {
    if hostname.None? then url
    else
      RemoveFirstSpec(hostname.value, WwwPrefix);
      ReplaceFirst(hostname.value, WwwPrefix, "")
  }

  /** A host starting with "www." loses exactly that prefix. */
  lemma GetDomainStripsPrefix(url: string, host: string)
    ensures GetDomain(url, Some(WwwPrefix + host)) == host
  {
    var h := WwwPrefix + host;
    assert OccursAt(h, WwwPrefix, 0);
    ReplaceFirstSpec(h, WwwPrefix, "");
    assert h[4..] == host;
  }

  /** A host without "www." anywhere is shown unchanged. */
  lemma GetDomainKeepsPlainHost(url: string, host: string)
    requires forall j :: 0 <= j <= |host| ==> !OccursAt(host, WwwPrefix, j)
    ensures GetDomain(url, Some(host)) == host
  {
    ReplaceFirstSpec(host, WwwPrefix, "");
  }

  /** The removal is not limited to a prefix: "a.www.b" is shown as "a.b". */
  lemma GetDomainInnerOccurrence()
    ensures GetDomain("http://a.www.b/", Some("a.www.b")) == "a.b"
  {
    var h := "a.www.b";
    assert OccursAt(h, WwwPrefix, 2);
    assert h[0..4][0] == 'a' && h[1..5][0] == '.';
    ReplaceFirstSpec(h, WwwPrefix, "");
    assert h[..2] == "a." && h[6..] == "b";
  }

  /** Only the first occurrence goes: "www.www.x" is shown as "www.x". */
  lemma GetDomainFirstOnly()
    ensures GetDomain("http://www.www.x/", Some("www.www.x")) == "www.x"
  {
    var x := "www.x";
    assert WwwPrefix + x == "www.www.x";
    GetDomainStripsPrefix("http://www.www.x/", x);
  }

  /** A request sent to the link service. */
  datatype LinkRequest = CreateLink(form: LinkForm) | DeleteLink(id: string)

  class UrlsPage {
    var urls: seq<Link>
    var formData: LinkForm
    var showForm: bool
    var submitting: bool
    var error: string
    /** Requests sent to the link service, oldest first. */
    var requests: seq<LinkRequest>

    constructor (loaded: seq<Link>)
      ensures urls == loaded && formData == EmptyForm && !showForm && !submitting
      ensures error == "" && requests == []
    {
      urls := loaded;
      formData := EmptyForm;
      showForm := false;
      submitting := false;
      error := "";
      requests := [];
    }

    /** `handleSubmit(e)`: needs both a url and a title; the created link goes in front
        and the form is emptied and hidden, or the error message is shown. */
    method HandleSubmit(outcome: Result<Link>)
      modifies this
      ensures old(formData.url) == "" || old(formData.title) == "" ==>
                urls == old(urls) && formData == old(formData) && showForm == old(showForm)
                && submitting == old(submitting) && error == old(error) && requests == old(requests)
      ensures old(formData.url) != "" && old(formData.title) != "" ==>
                requests == old(requests) + [CreateLink(old(formData))] && !submitting
      ensures old(formData.url) != "" && old(formData.title) != "" && outcome.Ok? ==>
                urls == [outcome.value] + old(urls) && formData == EmptyForm && !showForm && error == ""
      ensures old(formData.url) != "" && old(formData.title) != "" && outcome.Err? ==>
                urls == old(urls) && formData == old(formData) && showForm == old(showForm)
                && error == outcome.msg
    {
      if formData.url == "" || formData.title == "" {
        return;
      }
      submitting := true;
      error := "";
      requests := requests + [CreateLink(formData)];
      match outcome {
        case Ok(link) =>
          urls := [link] + urls;
          formData := EmptyForm;
          showForm := false;
        case Err(msg) =>
          error := msg;
      }
      submitting := false;
    }

    /** `handleDelete(id)`: nothing unless confirmed; then every link with that id goes. */
    method HandleDelete(id: string, confirmed: bool, outcome: Result<()>)
      modifies this
      ensures !confirmed ==> urls == old(urls) && requests == old(requests) && error == old(error)
      ensures confirmed ==> requests == old(requests) + [DeleteLink(id)]
      ensures confirmed && outcome.Ok? ==> urls == RemoveById(old(urls), id) && error == old(error)
      ensures confirmed && outcome.Err? ==> urls == old(urls) && error == "Failed to delete link"
      ensures formData == old(formData) && showForm == old(showForm) && submitting == old(submitting)
    {
      if !confirmed {
        return;
      }
      requests := requests + [DeleteLink(id)];
      if outcome.Ok? {
        urls := RemoveById(urls, id);
      } else {
        error := "Failed to delete link";
      }
    }
  }
}
