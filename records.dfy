/** Plain records of the pipeline (pydantic models without behaviour). */
module Records {
  import opened Common
  import opened Uuids

  /** One page rendered to an image file. */
  datatype ImageFile = ImageFile(path: string, pageNumber: int, givenFileName: string, traceId: Uuid)

  /** An uploaded batch input file. */
  datatype BatchFile = BatchFile(id: FileId, name: string, purpose: string, status: string, traceId: Uuid)

  /** The text produced for one page. */
  datatype PageResponse = PageResponse(outputContent: string, pageNumber: int)

  /** The attributes of the provider's answer to a file upload that the
      uploader reads. */
  datatype FileObject = FileObject(id: FileId, filename: string, purpose: string, status: string)
}
