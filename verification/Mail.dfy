/** Objects of the bucket, and what the index keeps of them. */
module Mail {

  datatype Object = Object(etag: string, body: string)

  /** An index entry; what the headers say is one value here. */
  datatype Message = Message(key: string, mid: string, folder: string, etag: string, summary: string)
}
