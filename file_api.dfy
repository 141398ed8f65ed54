/** The values the client exchanges with the file store's mutations and
    queries. The store itself runs on the server and is not part of this
    model; only the shapes of its arguments and results are. */
module FileApi {
  import opened Wrappers

  /** The closed set of file kinds a file document may carry. */
  datatype FileType = Image | Pdf | Csv

  /** Arguments of the `createFile` mutation. Fields the client may leave
      `undefined` are options. */
  datatype CreateFileArgs = CreateFileArgs(
    name: string,
    fileId: Option<string>,
    orgId: string,
    fileType: Option<FileType>)

  /** A file document as returned by the `getFiles` query; only the name,
      the one field the page renders, is kept. */
  datatype FileDoc = FileDoc(name: string)
}
