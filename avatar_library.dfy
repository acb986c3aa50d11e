/** The avatar library (src/avatars.ts). */
module AvatarLibrary {
  import opened Types

  /** Every library entry is a model hosted by Ready Player Me: its model and its thumbnail share
      the host, the model id and differ only by extension. */
  const ModelHost: string := "https://models.readyplayer.me/"

  function HostedFile(modelId: string, extension: string): string
  {
    ModelHost + modelId + extension
  }

  function LibraryAvatar(n: string, name: string, nameAr: string, modelId: string): Avatar
  {
    Avatar("avatar-" + n, name, nameAr, HostedFile(modelId, ".glb"), Some(HostedFile(modelId, ".png")),
      Male, Some("Custom avatar " + n))
  }

  const Avatars: seq<Avatar> := [
    LibraryAvatar("1", "Classic Casual", "كلاسيك كاجوال", "693fd189fe6f676b663eef96"),
    LibraryAvatar("2", "Modern Stylish", "مودرن ستايلش", "693fd3db100ae875d5ac970e"),
    LibraryAvatar("3", "Business Formal", "رسمي", "693fd49d14ff70500021ada0"),
    LibraryAvatar("4", "Cool Vibe", "كول فايب", "693fd50de37c2412efc8f6aa"),
    LibraryAvatar("5", "Urban Street", "حضري", "693fd56bd7e4ffac81fa4e48"),
    LibraryAvatar("6", "Sporty", "رياضي", "693fd5d0fe6f676b663f0870")
  ]

  /** Every library avatar is in the male category. */
  lemma AllMale()
    ensures forall i :: 0 <= i < |Avatars| ==> Avatars[i].category == Male
  {
  }

  /** Two hosted files with the same extension are the same file only for the same model id. */
  lemma HostedFileInjective(a: string, b: string, extension: string)
    requires HostedFile(a, extension) == HostedFile(b, extension)
    requires |a| == |b|
    ensures a == b
  {
    var k := |ModelHost|;
    forall i | 0 <= i < |a| ensures a[i] == b[i] {
      assert HostedFile(a, extension)[k + i] == a[i];
      assert HostedFile(b, extension)[k + i] == b[i];
    }
  }

  /** The library's models have pairwise different urls. */
  lemma AvatarUrlsDistinct()
    ensures |Avatars| == 6
    ensures forall i, j :: 0 <= i < j < |Avatars| ==> Avatars[i].url != Avatars[j].url
  {
    var ids := ["693fd189fe6f676b663eef96", "693fd3db100ae875d5ac970e", "693fd49d14ff70500021ada0",
                "693fd50de37c2412efc8f6aa", "693fd56bd7e4ffac81fa4e48", "693fd5d0fe6f676b663f0870"];
    assert forall i :: 0 <= i < 6 ==> Avatars[i].url == HostedFile(ids[i], ".glb") && |ids[i]| == 24;
    assert ids[0][5] == '1' && ids[1][5] == '3' && ids[2][5] == '4' && ids[3][5] == '5';
    assert ids[4][5] == '5' && ids[5][5] == '5' && ids[3][6] == '0' && ids[4][6] == '6' && ids[5][6] == 'd';
    forall i, j | 0 <= i < j < 6 ensures Avatars[i].url != Avatars[j].url {
      if Avatars[i].url == Avatars[j].url {
        HostedFileInjective(ids[i], ids[j], ".glb");
      }
    }
  }
}
