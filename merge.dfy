/** PdfMerger: append every input PDF in order, then write the result next to
    the week's files under a name derived from the invoice or the client. */
module Merge {
  import opened Text
  import opened Pages
  import opened Disk

  /** The pages PdfMerger collects from `inputs`, in order; None when appending
      one of them raises (a missing file or one PdfReader cannot open). */
  function MergedPages(fs: FileSystem, inputs: seq<string>): Option<seq<Page>>
  {
    if inputs == [] then Some([])
    else
      match MergedPages(fs, inputs[..|inputs| - 1])
      case None => None
      case Some(front) =>
        match ReadPdf(fs, inputs[|inputs| - 1])
        case None => None
        case Some(last) => Some(front + last)
  }

  /** The append loop of every merge. */
  method MergePdfs(fs: FileSystem, inputs: seq<string>) returns (r: Option<seq<Page>>)
    ensures r == MergedPages(fs, inputs)
  {
    var pages: seq<Page> := [];
    var i := 0;
    while i < |inputs|
      invariant 0 <= i <= |inputs|
      invariant MergedPages(fs, inputs[..i]) == Some(pages)
    {
      assert inputs[..i + 1][..i] == inputs[..i];
      var reading := ReadPdf(fs, inputs[i]);
      if reading.None? {
        assert inputs[..i + 1][i] == inputs[i];
        MergedFailsOnPrefix(fs, inputs, i + 1);
        return None;
      }
      pages := pages + reading.value;
      i := i + 1;
    }
    assert inputs[..i] == inputs;
    r := Some(pages);
  }

  /** Once appending fails, the whole merge fails. */
  lemma {:induction false} MergedFailsOnPrefix(fs: FileSystem, inputs: seq<string>, n: nat)
    requires n <= |inputs| && MergedPages(fs, inputs[..n]).None?
    ensures MergedPages(fs, inputs).None?
  {
    if n < |inputs| {
      var front := inputs[..|inputs| - 1];
      assert front[..n] == inputs[..n];
      MergedFailsOnPrefix(fs, front, n);
    } else {
      assert inputs[..n] == inputs;
    }
  }

  /** The merge succeeds exactly when every input is a PDF PdfReader opens. */
  lemma {:induction false} MergedReadable(fs: FileSystem, inputs: seq<string>)
    ensures MergedPages(fs, inputs).Some? <==> forall i :: 0 <= i < |inputs| ==> ReadPdf(fs, inputs[i]).Some?
  {
    if inputs != [] {
      var front := inputs[..|inputs| - 1];
      MergedReadable(fs, front);
      if MergedPages(fs, inputs).Some? {
        forall i | 0 <= i < |inputs| ensures ReadPdf(fs, inputs[i]).Some? {
          if i < |front| { assert inputs[i] == front[i]; }
        }
      } else if MergedPages(fs, front).None? {
        var i :| 0 <= i < |front| && ReadPdf(fs, front[i]).None?;
        assert inputs[i] == front[i];
      }
    }
  }

  /** Merging a concatenation concatenates the merges: the pages of the first
      inputs come first, followed by the pages of the rest. */
  lemma {:induction false} MergedAppend(fs: FileSystem, a: seq<string>, b: seq<string>)
    ensures MergedPages(fs, a + b).Some? <==> MergedPages(fs, a).Some? && MergedPages(fs, b).Some?
    ensures MergedPages(fs, a + b).Some? ==>
              MergedPages(fs, a + b).value == MergedPages(fs, a).value + MergedPages(fs, b).value
  {
    if b == [] {
      assert a + b == a;
    } else {
      var bf := b[..|b| - 1];
      assert (a + b)[..|a + b| - 1] == a + bf;
      assert (a + b)[|a + b| - 1] == b[|b| - 1];
      MergedAppend(fs, a, bf);
      if MergedPages(fs, a + b).Some? {
        var pa, pf := MergedPages(fs, a).value, MergedPages(fs, bf).value;
        var last := ReadPdf(fs, b[|b| - 1]).value;
        assert (pa + pf) + last == pa + (pf + last);
      }
    }
  }

  /** The merged document of [invoice] + timesheets starts with every page of
      the invoice, followed by the timesheets' pages. */
  lemma InvoicePagesFirst(fs: FileSystem, invoice: string, timesheets: seq<string>)
    requires MergedPages(fs, [invoice] + timesheets).Some?
    ensures ReadPdf(fs, invoice).Some? && MergedPages(fs, timesheets).Some?
    ensures MergedPages(fs, [invoice] + timesheets).value
            == ReadPdf(fs, invoice).value + MergedPages(fs, timesheets).value
  {
    MergedAppend(fs, [invoice], timesheets);
    assert [invoice][..0] == [];
  }

  /** The name of the merged file: `{invoice root}_.pdf` when there is an
      invoice, `{client}_Week_{week}.pdf` otherwise. */
  function OutputName(invoice: Option<string>, client: string, week: string): string
  {
    match invoice
    case Some(inv) => Root(Basename(inv)) + "_.pdf"
    case None => client + "_Week_" + week + ".pdf"
  }

  /** The merged name keeps the invoice's root, so an invoice whose name
      contains "invoice" produces a merged file that is itself an invoice by
      name. */
  lemma OutputNameShape(invoice: Option<string>, client: string, week: string)
    ensures EndsWith(OutputName(invoice, client, week), ".pdf")
    ensures invoice.Some? ==> OutputName(invoice, client, week)[..|Root(Basename(invoice.value))|]
                                == Root(Basename(invoice.value))
    ensures invoice.None? ==> OutputName(invoice, client, week)[..|client|] == client
  {
  }

  /** The merge and its write: Some(disk) with the merged PDF at Join(dir,
      name), or None when an append raised. */
  function MergeInto(fs: FileSystem, inputs: seq<string>, dir: string, name: string): (r: Option<FileSystem>)
    ensures r.Some? <==> MergedPages(fs, inputs).Some?
    ensures r.Some? ==> WritesOnly(fs, r.value, Join(dir, name))
    ensures r.Some? ==> ReadPdf(r.value, Join(dir, name)) == MergedPages(fs, inputs)
  {
    match MergedPages(fs, inputs)
    case None => None
    case Some(pages) => Some(Write(fs, dir, name, Pdf(pages)))
  }

  method MergeAndWrite(fs: FileSystem, inputs: seq<string>, dir: string, name: string) returns (r: Option<FileSystem>)
    ensures r == MergeInto(fs, inputs, dir, name)
  {
    var pages := MergePdfs(fs, inputs);
    if pages.None? {
      return None;
    }
    r := Some(Write(fs, dir, name, Pdf(pages.value)));
  }
}
