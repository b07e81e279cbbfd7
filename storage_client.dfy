/** The storage client wrappers: `formatAddress` and the `uploadFile` / `uploadAsJson`
    wrappers that decide whether the base client's upload gets an access-control list. */
module StorageClient {
  import opened Lens

  const InvalidAddress := "Invalid address format"

  /** `formatAddress`: the address unchanged when it starts with `0x` (case-sensitive;
      `0x` alone passes), otherwise the `Invalid address format` error. */
  function FormatAddress(address: string): (r: Attempt<string>)
    ensures r.Done? <==> |address| >= 2 && address[0] == '0' && address[1] == 'x'
    ensures r.Done? ==> r.value == address
    ensures r.Threw? ==> r.exception == Error(InvalidAddress)
  {
    if !StartsWith(address, "0x") then Threw(Error(InvalidAddress)) else Done(address)
  }

  /** The upload options: no ACL without an address, `lensAccountOnly(address)` with one;
      an invalid address throws before any upload. */
  function AclFor(address: Option<string>): (r: Attempt<Option<Acl>>)
    ensures !Present(address) ==> r == Done(None)
    ensures Present(address) && StartsWith(address.value, "0x") ==> r == Done(Some(LensAccountOnly(address.value)))
    ensures Present(address) && !StartsWith(address.value, "0x") ==> r == Threw(Error(InvalidAddress))
  {
    if !Present(address) then Done(None)
    else
      match FormatAddress(address.value)
      case Threw(e) => Threw(e)
      case Done(a) => Done(Some(LensAccountOnly(a)))
  }

  /** `storageClient.uploadFile(file, address?)`: forwards to the base client's `uploadFile`,
      with an ACL built from exactly that address when one is given. */
  function UploadFile(file: File, address: Option<string>, base: Attempt<string>): (r: Run<string>)
    ensures !Present(address) ==> r == Run([StorageUploadFile(file, None)], base)
    ensures Present(address) && StartsWith(address.value, "0x") ==>
              r == Run([StorageUploadFile(file, Some(LensAccountOnly(address.value)))], base)
    ensures Present(address) && !StartsWith(address.value, "0x") ==>
              r == Run([], Threw(Error(InvalidAddress)))
  {
    match AclFor(address)
    case Threw(e) => Run([], Threw(e))
    case Done(acl) => Run([StorageUploadFile(file, acl)], base)
  }

  /** `storageClient.uploadAsJson(data, address?)`: the same ACL rules as `UploadFile`. */
  function UploadAsJson(doc: Metadata, address: Option<string>, base: Attempt<string>): (r: Run<string>)
    ensures !Present(address) ==> r == Run([StorageUploadJson(doc, None)], base)
    ensures Present(address) && StartsWith(address.value, "0x") ==>
              r == Run([StorageUploadJson(doc, Some(LensAccountOnly(address.value)))], base)
    ensures Present(address) && !StartsWith(address.value, "0x") ==>
              r == Run([], Threw(Error(InvalidAddress)))
  {
    match AclFor(address)
    case Threw(e) => Run([], Threw(e))
    case Done(acl) => Run([StorageUploadJson(doc, acl)], base)
  }

  /** Both wrappers make at most one base call, and make none exactly when the address is invalid. */
  lemma AtMostOneBaseCall(file: File, doc: Metadata, address: Option<string>, base: Attempt<string>)
    ensures |UploadFile(file, address, base).calls| <= 1 && |UploadAsJson(doc, address, base).calls| <= 1
    ensures UploadFile(file, address, base).calls == [] <==> AclFor(address).Threw?
    ensures UploadAsJson(doc, address, base).calls == [] <==> AclFor(address).Threw?
  {
  }
}
